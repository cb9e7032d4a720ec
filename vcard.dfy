/** The vCard 3.0 text (RFC 2426) that the contact QR code carries. The card
    is built from one fixed template: field values are inserted as they are,
    with no escaping, and lines are separated by a bare line feed. */
module VCard {
  import opened Results
  import opened Strings

  /** A contact record; `website` may be absent. */
  datatype ContactInfo = ContactInfo(
    firstName: string,
    lastName: string,
    title: string,
    organization: string,
    phone: string,
    email: string,
    address: string,
    website: Option<string>)

  /** The contact the page is built for. */
  const Card := ContactInfo(
    "CA Akshay",
    "Bardia",
    "Managing Director",
    "A.T. Plus Jewellers Pvt Ltd",
    "+91 9977447111",
    "akshay@atjewels.in",
    "AT Jewellers, Kotwali Chowk, Sadar Bazar Road, Raipur, Chhattisgarh \U{2014} 492001",
    Some(""))

  /** JavaScript truthiness of the optional website: present and non-empty. */
  predicate HasWebsite(c: ContactInfo) {
    c.website.Some? && c.website.value != ""
  }

  /** The structured name: family;given;additional;prefixes;suffixes. */
  function NameValue(c: ContactInfo): string {
    c.lastName + ";" + c.firstName + ";;;"
  }

  /** The delivery address: the whole address sits in the street slot of
      PO box;extended;street;locality;region;postal code;country. */
  function AddressValue(c: ContactInfo): string {
    ";;" + c.address + ";;;;"
  }

  /** The line between ADR and END: the URL property, or nothing. */
  function UrlSlot(c: ContactInfo): string {
    if HasWebsite(c) then "URL:" + c.website.value else ""
  }

  /** The lines of the template literal, in order: the structured and
      formatted names, title, organisation, phone, e-mail, address and the
      URL slot, between the BEGIN and END delimiters. */
  function Lines(c: ContactInfo): seq<string> {
    [ "BEGIN:VCARD",
      "VERSION:3.0",
      "N:" + NameValue(c),
      "FN:" + c.firstName + " " + c.lastName,
      "TITLE:" + c.title,
      "ORG:" + c.organization,
      "TEL:" + c.phone,
      "EMAIL:" + c.email,
      "ADR:" + AddressValue(c),
      UrlSlot(c),
      "END:VCARD" ]
  }

  /** The template literal before `.trim()`: its lines joined by bare line
      feeds, field values inserted raw. */
  function Template(c: ContactInfo): string {
    Join(Lines(c), '\n')
  }

  /** `generateVCard`: the template, trimmed. Whatever the fields hold, the
      result opens with the BEGIN delimiter and closes with the END one. */
  function GenerateVCard(c: ContactInfo): (card: string)
    ensures |card| >= 20
    ensures card[..11] == "BEGIN:VCARD" && card[|card| - 9..] == "END:VCARD"
  {
    TemplateEnds(c);
    TrimKeepsText(Template(c));
    Trim(Template(c))
  }

  /** The template's first and last characters are those of the two
      delimiters, so `.trim()` finds nothing to remove. */
  lemma TemplateEnds(c: ContactInfo)
    ensures |Template(c)| >= 20
    ensures Template(c)[..11] == "BEGIN:VCARD"
    ensures Template(c)[|Template(c)| - 9..] == "END:VCARD"
  {
    var ls := Lines(c);
    var t := Template(c);
    assert ls[1..][|ls[1..]| - 1] == "END:VCARD";
    JoinEndsWithLast(ls[1..], '\n');
    assert t == "BEGIN:VCARD" + "\n" + Join(ls[1..], '\n');
    assert |Join(ls[1..], '\n')| >= 9;
  }

  /** `generateVCard` returns the template unchanged. */
  lemma TrimIsIdentity(c: ContactInfo)
    ensures GenerateVCard(c) == Template(c)
  {
    TemplateEnds(c);
    TrimKeepsText(Template(c));
  }

  predicate NoLineFeeds(c: ContactInfo) {
    && '\n' !in c.firstName && '\n' !in c.lastName && '\n' !in c.title
    && '\n' !in c.organization && '\n' !in c.phone && '\n' !in c.email
    && '\n' !in c.address && (c.website.Some? ==> '\n' !in c.website.value)
  }

  /** The card is exactly the eleven lines in the fixed order; the URL slot
      stays as a line of its own even when it is empty. */
  lemma CardLines(c: ContactInfo)
    requires NoLineFeeds(c)
    ensures Split(GenerateVCard(c), '\n') == Lines(c)
    ensures |Split(GenerateVCard(c), '\n')| == 11
  {
    var ls := Lines(c);
    forall i | 0 <= i < |ls| ensures '\n' !in ls[i] {
    }
    SplitJoin(ls, '\n');
    TrimIsIdentity(c);
  }

  /** A line starting with `URL:` appears exactly when the website is
      present and non-empty, and then it carries the website; otherwise the
      slot before END is an empty line, which `.trim()` does not remove. */
  lemma UrlLineIffWebsite(c: ContactInfo)
    requires NoLineFeeds(c)
    ensures var ls := Split(GenerateVCard(c), '\n');
      && |ls| == 11
      && ((exists i :: 0 <= i < |ls| && StartsWith(ls[i], "URL:")) <==> HasWebsite(c))
      && (HasWebsite(c) ==> ls[9] == "URL:" + c.website.value)
      && (!HasWebsite(c) ==> ls[9] == "" && ls[10] == "END:VCARD")
  {
    CardLines(c);
    var ls := Lines(c);
    forall i | 0 <= i < |ls| && i != 9 ensures !StartsWith(ls[i], "URL:") {
      assert ls[i] != [] && ls[i][0] != 'U';
    }
    if HasWebsite(c) {
      assert StartsWith(ls[9], "URL:");
    }
  }

  /** The page's own contact has an empty website, so its card keeps a
      blank line where the URL would go, just before END. */
  lemma PageCardHasBlankUrlSlot()
    ensures !HasWebsite(Card)
    ensures Lines(Card)[9] == "" && Lines(Card)[10] == "END:VCARD"
  {
  }

  /** The N value splits into the pieces of the family name, the pieces of
      the given name and three empty components: the names are not escaped,
      so each semicolon inside one adds a component. */
  lemma NamePieces(c: ContactInfo)
    ensures Split(NameValue(c), ';') == Split(c.lastName, ';') + Split(c.firstName, ';') + ["", "", ""]
  {
    EmptyPieces();
    var u := c.firstName + [';'] + ";;";
    assert Split(u, ';') == Split(c.firstName, ';') + ["", "", ""] by {
      SplitAround(c.firstName, ";;", ';');
    }
    assert Split(c.lastName + [';'] + u, ';') == Split(c.lastName, ';') + Split(u, ';') by {
      SplitAround(c.lastName, u, ';');
    }
    assert c.lastName + [';'] + u == NameValue(c);
  }

  /** The N value has five components, family then given name then three
      empty ones, as long as neither name holds a semicolon. */
  lemma NameComponents(c: ContactInfo)
    requires ';' !in c.lastName && ';' !in c.firstName
    ensures Split(NameValue(c), ';') == [c.lastName, c.firstName, "", "", ""]
  {
    NamePieces(c);
    SplitWhole(c.lastName, ';');
    SplitWhole(c.firstName, ';');
  }

  /** The ADR value splits into two empty components, the pieces of the
      address and four empty components: the address is not escaped, so
      each semicolon inside it adds a component. */
  lemma AddressPieces(c: ContactInfo)
    ensures Split(AddressValue(c), ';') == ["", ""] + Split(c.address, ';') + ["", "", "", ""]
  {
    EmptyPieces();
    var u := c.address + [';'] + ";;;";
    SplitAround(c.address, ";;;", ';');
    SplitCons(';', u, ';');
    SplitCons(';', [';'] + u, ';');
    assert [';'] + ([';'] + u) == AddressValue(c);
  }

  /** The ADR value has seven components with the whole address in the
      street slot, as long as the address holds no semicolon. */
  lemma AddressComponents(c: ContactInfo)
    requires ';' !in c.address
    ensures Split(AddressValue(c), ';') == ["", "", c.address, "", "", "", ""]
  {
    AddressPieces(c);
    SplitWhole(c.address, ';');
  }

  /** An address holding a semicolon pushes what follows it out of the
      street slot into the locality slot: the value then has eight
      components. */
  lemma AddressSemicolonShifts(c: ContactInfo, street: string, locality: string)
    requires ';' !in street && ';' !in locality
    requires c.address == street + ";" + locality
    ensures Split(AddressValue(c), ';') == ["", "", street, locality, "", "", "", ""]
  {
    AddressPieces(c);
    SplitAround(street, locality, ';');
    SplitWhole(street, ';');
    SplitWhole(locality, ';');
  }

  /** Runs of separators split into empty pieces. */
  lemma EmptyPieces()
    ensures Split("", ';') == [""]
    ensures Split(";;", ';') == ["", "", ""]
    ensures Split(";;;", ';') == ["", "", "", ""]
  {
    var e: string := [];
    SplitAround(e, e, ';');
    SplitAround(e, ";", ';');
    SplitAround(e, ";;", ';');
    assert e + [';'] + e == ";";
    assert e + [';'] + ";" == ";;";
    assert e + [';'] + ";;" == ";;;";
  }
}
