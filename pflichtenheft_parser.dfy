/** The record transformer of `pflichtenheft_parser.py`: it turns one
    assignment-specification record (decoded JSON) into one CSV row of the
    fixed fourteen-column header and, when a vCard directory is given, writes
    a contact-person card and a company card (vCard 4.0, RFC 6350) there. */
module PflichtenheftParser {
  import opened Wrappers
  import opened PyText
  import opened PyData

  const Delimiter: string := ","

  /** The published column names, in order. */
  const HeaderNames: seq<string> := [
    "PLZ",
    "Land",
    "Einsatzbetrieb",
    "Tätigkeiten",
    "Mindestdauer",
    "Arbeitszeitenmodell",
    "Wochenendarbeit Möglich",
    "Nachtarbeit Möglich",
    "Unterkunft",
    "Verpflegung",
    "Kurse",
    "Kontaktperson Name",
    "Kontaktperson VCard",
    "Schwerpunktprogramm"
  ]

  /** The header line printed before the rows. */
  const Header: string := Join(HeaderNames, Delimiter)

  /** The header line has fourteen comma-separated columns, the published
      names in order. */
  lemma HeaderColumns()
    ensures |HeaderNames| == 14
    ensures Split(Header, ',') == HeaderNames
  {
    NoCommaInHeaderNames();
    JoinSplit(HeaderNames, ',');
  }

  /** No column name contains the delimiter. */
  lemma NoCommaInHeaderNames()
    ensures forall i :: 0 <= i < |HeaderNames| ==> ',' !in HeaderNames[i]
  {
    assert ',' !in HeaderNames[0];
    assert ',' !in HeaderNames[1];
    assert ',' !in HeaderNames[2];
    assert ',' !in HeaderNames[3];
    assert ',' !in HeaderNames[4];
    assert ',' !in HeaderNames[5];
    assert ',' !in HeaderNames[6];
    assert ',' !in HeaderNames[7];
    assert ',' !in HeaderNames[8];
    assert ',' !in HeaderNames[9];
    assert ',' !in HeaderNames[10];
    assert ',' !in HeaderNames[11];
    assert ',' !in HeaderNames[12];
    assert ',' !in HeaderNames[13];
  }

  /** The Python exceptions the transformer can raise. */
  datatype PyError =
    | TypeError               // subscripting or iterating the wrong kind of value, joining a non-string
    | KeyError(key: string)   // `item[key]` on a mapping without that key
    | AttributeError(key: string)  // `.get(key)` on a truthy value that is not a mapping
    | ValueError              // `save_vcard` with neither a filename nor an organisation id

  // ---------------------------------------------------------------------
  // The inner `get(key, *sub_keys)` of `json_to_csv`
  // ---------------------------------------------------------------------

  /** The last step of `get`: `None` and `"n/a"` read as the empty string. */
  function Normalize(v: Json): (r: Json)
    ensures r != JNull && r != JStr("n/a")
    ensures v != JNull && v != JStr("n/a") ==> r == v
    ensures v == JNull || v == JStr("n/a") ==> r == JStr("")
  {
    if v == JNull || v == JStr("n/a") then JStr("") else v
  }

  /** The walk of `get` along the sub-keys, starting from `value`. */
  function Descend(value: Json, subKeys: seq<string>): (r: Result<Json, PyError>)
    ensures r.Ok? ==> r.value != JNull && r.value != JStr("n/a")
    decreases |subKeys|
  {
    if |subKeys| == 0 then Ok(Normalize(value))
    else if !Truthy(value) then Ok(JStr(""))
    else if !value.JObject? then Err(AttributeError(subKeys[0]))
    else Descend(Member(value, subKeys[0]), subKeys[1..])
  }

  /** `get(key, *sub_keys)` over the record `data`. A record that is not a
      mapping yields `""` (the exception is caught); a truthy intermediate
      value that is not a mapping raises, and nothing catches it. */
  function Lookup(data: Json, key: string, subKeys: seq<string>): (r: Result<Json, PyError>)
    ensures !data.JObject? ==> r == Ok(JStr(""))
    ensures |subKeys| == 0 ==> r.Ok?
    ensures r.Ok? ==> r.value != JNull && r.value != JStr("n/a")
  {
    if !data.JObject? then Ok(JStr("")) else Descend(Member(data, key), subKeys)
  }

  /** `get(key)` without sub-keys, which cannot raise. */
  function Field(data: Json, key: string): (v: Json)
    ensures Lookup(data, key, []) == Ok(v)
    ensures v != JNull
  {
    Lookup(data, key, []).value
  }

  /** The loop of `get`, reassigning `value` one sub-key at a time. */
  method Get(data: Json, key: string, subKeys: seq<string>) returns (r: Result<Json, PyError>)
    ensures r == Lookup(data, key, subKeys)
  {
    if !data.JObject? {
      return Ok(JStr(""));
    }
    var value := Member(data, key);
    var i := 0;
    while i < |subKeys|
      invariant 0 <= i <= |subKeys|
      invariant Descend(value, subKeys[i..]) == Lookup(data, key, subKeys)
    {
      if !Truthy(value) {
        return Ok(JStr(""));
      }
      if !value.JObject? {
        return Err(AttributeError(subKeys[i]));
      }
      assert subKeys[i..][1..] == subKeys[i + 1..];
      value := Member(value, subKeys[i]);
      i := i + 1;
    }
    return Ok(Normalize(value));
  }

  /** The value found by following `path` from `v` through mappings. */
  ghost function Follow(v: Json, path: seq<string>): Json
    decreases |path|
  {
    if |path| == 0 then v
    else if v.JObject? then Follow(Member(v, path[0]), path[1..])
    else JNull
  }

  /** Every value met before the last step of `path` is a non-empty mapping. */
  ghost predicate Reaches(v: Json, path: seq<string>)
  {
    forall n :: 0 <= n < |path| ==> Truthy(Follow(v, path[..n])) && Follow(v, path[..n]).JObject?
  }

  lemma FollowStep(v: Json, path: seq<string>, n: nat)
    requires 1 <= n <= |path| && v.JObject?
    ensures Follow(v, path[..n]) == Follow(Member(v, path[0]), path[1..][..n - 1])
  {
    assert path[..n][1..] == path[1..][..n - 1];
  }

  lemma ReachesTail(v: Json, path: seq<string>)
    requires |path| >= 1 && v.JObject? && Reaches(v, path)
    ensures Reaches(Member(v, path[0]), path[1..])
  {
    assert path[..0] == [];
    forall n | 0 <= n < |path[1..]|
      ensures Truthy(Follow(Member(v, path[0]), path[1..][..n]))
      ensures Follow(Member(v, path[0]), path[1..][..n]).JObject?
    {
      FollowStep(v, path, n + 1);
    }
  }

  /** When every intermediate value is a non-empty mapping, `get` returns the
      value at the end of the path, with `None` and `"n/a"` read as `""`. */
  lemma {:induction false} DescendAlongPath(v: Json, path: seq<string>)
    requires Reaches(v, path)
    ensures Descend(v, path) == Ok(Normalize(Follow(v, path)))
    decreases |path|
  {
    if |path| > 0 {
      assert path[..0] == [];
      ReachesTail(v, path);
      DescendAlongPath(Member(v, path[0]), path[1..]);
    }
  }

  /** When the walk meets a falsy value before the last step, `get` returns
      `""`. */
  lemma {:induction false} DescendStopsAtFalsy(v: Json, path: seq<string>, n: nat)
    requires n < |path| && Reaches(v, path[..n])
    requires !Truthy(Follow(v, path[..n]))
    ensures Descend(v, path) == Ok(JStr(""))
    decreases n
  {
    assert path[..0] == [];
    if n > 0 {
      assert path[..n][..0] == [];
      assert Truthy(Follow(v, path[..n][..0]));
      FollowStep(v, path, n);
      ReachesTail(v, path[..n]);
      assert path[..n][1..] == path[1..][..n - 1];
      DescendStopsAtFalsy(Member(v, path[0]), path[1..], n - 1);
    }
  }

  /** When the walk meets a truthy value that is not a mapping before the
      last step, `get` raises on the next sub-key. */
  lemma {:induction false} DescendFailsOnNonMapping(v: Json, path: seq<string>, n: nat)
    requires n < |path| && Reaches(v, path[..n])
    requires Truthy(Follow(v, path[..n])) && !Follow(v, path[..n]).JObject?
    ensures Descend(v, path) == Err(AttributeError(path[n]))
    decreases n
  {
    assert path[..0] == [];
    if n > 0 {
      assert path[..n][..0] == [];
      assert Truthy(Follow(v, path[..n][..0]));
      FollowStep(v, path, n);
      ReachesTail(v, path[..n]);
      assert path[..n][1..] == path[1..][..n - 1];
      DescendFailsOnNonMapping(Member(v, path[0]), path[1..], n - 1);
    }
  }

  // ---------------------------------------------------------------------
  // extract_sub_csv, extract_kurs_codes
  // ---------------------------------------------------------------------

  /** `item` is a mapping whose `key` holds a string. */
  predicate HasTextField(item: Json, key: string)
  {
    item.JObject? && key in item.fields && item.fields[key].JStr?
  }

  /** The `key` strings of the items, in list order. */
  function FieldTexts(items: seq<Json>, key: string): (texts: seq<string>)
    requires forall i :: 0 <= i < |items| ==> HasTextField(items[i], key)
    ensures |texts| == |items|
  {
    seq(|items|, i requires 0 <= i < |items| && HasTextField(items[i], key) => items[i].fields[key].s)
  }

  /** `[item[key] for item in items]`: the first item that cannot be
      subscripted raises. */
  function SubscriptAll(items: seq<Json>, key: string): (r: Result<seq<Json>, PyError>)
    ensures r.Ok? <==> forall i :: 0 <= i < |items| ==> items[i].JObject? && key in items[i].fields
    ensures r.Ok? ==> |r.value| == |items|
    ensures r.Ok? ==> forall i :: 0 <= i < |items| ==> r.value[i] == items[i].fields[key]
  {
    if |items| == 0 then Ok([])
    else if !items[0].JObject? then Err(TypeError)
    else if key !in items[0].fields then Err(KeyError(key))
    else
      match SubscriptAll(items[1..], key)
      case Err(e) =>
        assert !(forall i :: 0 <= i < |items| ==> items[i].JObject? && key in items[i].fields) by {
          var i :| 0 <= i < |items[1..]| && !(items[1..][i].JObject? && key in items[1..][i].fields);
          assert items[1..][i] == items[i + 1];
        }
        Err(e)
      case Ok(rest) =>
        assert forall i :: 1 <= i < |items| ==> items[i] == items[1..][i - 1];
        Ok([items[0].fields[key]] + rest)
  }

  /** The strings inside string values. */
  function Texts(values: seq<Json>): (texts: seq<string>)
    requires forall i :: 0 <= i < |values| ==> values[i].JStr?
    ensures |texts| == |values| && forall i :: 0 <= i < |values| ==> texts[i] == values[i].s
  {
    if |values| == 0 then [] else [values[0].s] + Texts(values[1..])
  }

  /** `", ".join(item[key] for item in list_of_items)` after the falsy check:
      a falsy list gives `""`; otherwise every item must be a mapping whose
      `key` holds a string, and the strings are joined in list order. */
  function ExtractSubCsv(listOfItems: Json, key: string): (r: Result<string, PyError>)
    ensures !Truthy(listOfItems) ==> r == Ok("")
    ensures Truthy(listOfItems) && !listOfItems.JList? ==> r == Err(TypeError)
    ensures listOfItems.JList? ==>
      (r.Ok? <==> forall i :: 0 <= i < |listOfItems.items| ==> HasTextField(listOfItems.items[i], key))
    ensures listOfItems.JList? && r.Ok? ==> r.value == Join(FieldTexts(listOfItems.items, key), ", ")
  {
    if !Truthy(listOfItems) then Ok("")
    else
      match listOfItems
      case JList(items) =>
        (match SubscriptAll(items, key)
         case Err(e) => Err(e)
         case Ok(values) =>
           if forall i :: 0 <= i < |values| ==> values[i].JStr? then
             assert forall i :: 0 <= i < |items| ==> HasTextField(items[i], key);
             assert Texts(values) == FieldTexts(items, key);
             Ok(Join(Texts(values), ", "))
           else
             Err(TypeError))
      case _ => Err(TypeError)
  }

  /** `extract_kurs_codes`: the course codes, in list order, joined by `", "`;
      `""` for a falsy course list. */
  function ExtractKursCodes(kursList: Json): (r: Result<string, PyError>)
    ensures !Truthy(kursList) ==> r == Ok("")
    ensures Truthy(kursList) && !kursList.JList? ==> r == Err(TypeError)
    ensures kursList.JList? ==>
      (r.Ok? <==> forall i :: 0 <= i < |kursList.items| ==> HasTextField(kursList.items[i], "code"))
    ensures kursList.JList? && r.Ok? ==> r.value == Join(FieldTexts(kursList.items, "code"), ", ")
  {
    ExtractSubCsv(kursList, "code")
  }

  // ---------------------------------------------------------------------
  // convert_boolean_value, construct_name
  // ---------------------------------------------------------------------

  /** The two values a boolean cell can take. */
  function BoolText(b: bool): string
  {
    if b then "TRUE" else "FALSE"
  }

  /** A coded mapping is true exactly for the codes `JA` and `IE`; any other
      value is true exactly when it is truthy. */
  function ConvertBooleanValue(value: Json): (r: string)
    ensures r == "TRUE" || r == "FALSE"
    ensures value.JObject? ==> (r == "TRUE" <==> Member(value, "code") in {JStr("JA"), JStr("IE")})
    ensures !value.JObject? ==> (r == "TRUE" <==> Truthy(value))
  {
    if value.JObject? then BoolText(Member(value, "code") == JStr("JA") || Member(value, "code") == JStr("IE"))
    else BoolText(Truthy(value))
  }

  /** `"first last"` when both parts are truthy, otherwise `first or last`. */
  function ConstructName(firstName: Json, lastName: Json): (r: Json)
    ensures Truthy(firstName) && Truthy(lastName) ==> r == JStr(Str(firstName) + " " + Str(lastName))
    ensures Truthy(firstName) && !Truthy(lastName) ==> r == firstName
    ensures !Truthy(firstName) ==> r == lastName
    ensures Truthy(r) <==> Truthy(firstName) || Truthy(lastName)
    ensures firstName != JNull && lastName != JNull ==> r != JNull
  {
    if Truthy(firstName) && Truthy(lastName) then
      JStr(Str(firstName) + " " + Str(lastName))
    else if Truthy(firstName) then firstName
    else lastName
  }

  // ---------------------------------------------------------------------
  // create_vcard
  // ---------------------------------------------------------------------

  /** The property names of a card, in the order the card lists them. */
  const VCardKeys: seq<string> := [
    "BEGIN", "VERSION", "FN", "N", "ORG", "KIND", "TITLE",
    "TEL;TYPE=WORK,X-1", "TEL;TYPE=WORK,X-2", "EMAIL", "END"
  ]

  /** The `KIND` value (section 6.1.4 of RFC 6350). */
  function Kind(firstName: Json, lastName: Json, function_: Json, organisation: Json): (k: string)
    ensures k == "org" || k == "individual"
    ensures k == "org" <==> !Truthy(firstName) && !Truthy(lastName) && !Truthy(function_) && Truthy(organisation)
  {
    if !Truthy(firstName) && !Truthy(lastName) && !Truthy(function_) && Truthy(organisation) then "org"
    else "individual"
  }

  /** The frame every draft has: the fixed keys, `BEGIN` and `VERSION`
      first and `END` last. */
  ghost predicate DraftShape(d: seq<(string, Json)>)
  {
    |d| == |VCardKeys| && Keys(d) == VCardKeys &&
    d[0] == ("BEGIN", JStr("VCARD")) && d[1] == ("VERSION", JStr("4.0")) && d[10] == ("END", JStr("VCARD"))
  }

  /** The `fields` dict of `create_vcard` before empty values are dropped:
      the fixed keys in order, `BEGIN` and `VERSION` first, `END` last, and
      the `KIND` entry at position 5. */
  function VCardDraft(firstName: Json, lastName: Json, function_: Json, phone1: Json, phone2: Json,
                      email: Json, organisation: Json): (d: seq<(string, Json)>)
    ensures DraftShape(d)
    ensures d[5] == ("KIND", JStr(Kind(firstName, lastName, function_, organisation)))
  {
    [ ("BEGIN", JStr("VCARD")),
      ("VERSION", JStr("4.0")),
      ("FN", ConstructName(firstName, lastName)),
      ("N", if Truthy(firstName) || Truthy(lastName) then JStr(Str(lastName) + ";" + Str(firstName) + ";;;") else JStr("")),
      ("ORG", organisation),
      ("KIND", JStr(Kind(firstName, lastName, function_, organisation))),
      ("TITLE", function_),
      ("TEL;TYPE=WORK,X-1", phone1),
      ("TEL;TYPE=WORK,X-2", phone2),
      ("EMAIL", email),
      ("END", JStr("VCARD")) ]
  }

  /** The properties of the card: the draft without its empty values. Every
      card keeps `BEGIN` and `VERSION` first and `END` last, and only
      non-empty values. */
  function VCardEntries(firstName: Json, lastName: Json, function_: Json, phone1: Json, phone2: Json,
                        email: Json, organisation: Json): (e: seq<(string, Json)>)
    ensures |e| >= 3 && e[0] == ("BEGIN", JStr("VCARD")) && e[1] == ("VERSION", JStr("4.0"))
    ensures e[|e| - 1] == ("END", JStr("VCARD"))
    ensures forall i :: 0 <= i < |e| ==> Truthy(e[i].1)
  {
    var d := VCardDraft(firstName, lastName, function_, phone1, phone2, email, organisation);
    FilteredDraftFrame(d);
    FilterEntries(d, Truthy)
  }

  lemma FilteredDraftFrame(d: seq<(string, Json)>)
    requires DraftShape(d)
    ensures var e := FilterEntries(d, Truthy);
      |e| >= 3 && e[0] == ("BEGIN", JStr("VCARD")) && e[1] == ("VERSION", JStr("4.0")) &&
      e[|e| - 1] == ("END", JStr("VCARD"))
  {
    FilterKeepsFrame(d, Truthy);
  }

  /** No property of a card has an empty value. */
  lemma VCardValuesNonEmpty(firstName: Json, lastName: Json, function_: Json, phone1: Json, phone2: Json,
                            email: Json, organisation: Json)
    ensures var e := VCardEntries(firstName, lastName, function_, phone1, phone2, email, organisation);
      forall i :: 0 <= i < |e| ==> Str(e[i].1) != ""
  {
  }

  /** The properties appear in the fixed order of `VCardKeys`. */
  lemma VCardKeyOrder(firstName: Json, lastName: Json, function_: Json, phone1: Json, phone2: Json,
                      email: Json, organisation: Json)
    ensures Subsequence(Keys(VCardEntries(firstName, lastName, function_, phone1, phone2, email, organisation)), VCardKeys)
  {
    FilterKeepsOrder(VCardDraft(firstName, lastName, function_, phone1, phone2, email, organisation), Truthy);
  }

  /** A property is on the card exactly when its value is non-empty. */
  lemma VCardPresence(firstName: Json, lastName: Json, function_: Json, phone1: Json, phone2: Json,
                      email: Json, organisation: Json)
    ensures var e := VCardEntries(firstName, lastName, function_, phone1, phone2, email, organisation);
      var d := VCardDraft(firstName, lastName, function_, phone1, phone2, email, organisation);
      forall i :: 0 <= i < |d| ==> (d[i] in e <==> Truthy(d[i].1))
  {
  }

  /** One `key:value` line per property. */
  function VCardLines(e: seq<(string, Json)>): (lines: seq<string>)
    ensures |lines| == |e|
    ensures forall i :: 0 <= i < |e| ==> lines[i] == e[i].0 + ":" + Str(e[i].1)
  {
    seq(|e|, i requires 0 <= i < |e| => e[i].0 + ":" + Str(e[i].1))
  }

  /** The text of a card with properties `e`: its lines joined with `"\n"`
      (not the CRLF of section 3.2 of RFC 6350). */
  function CardText(e: seq<(string, Json)>): (text: string)
    ensures |e| >= 1 && (forall i :: 0 <= i < |e| ==> '\n' !in VCardLines(e)[i]) ==>
      Split(text, '\n') == VCardLines(e)
  {
    var text := Join(VCardLines(e), "\n");
    if |e| >= 1 && forall i :: 0 <= i < |e| ==> '\n' !in VCardLines(e)[i] then
      JoinSplit(VCardLines(e), '\n');
      text
    else text
  }

  /** Properties that open with `BEGIN` and `VERSION` give a text that opens
      with those two lines. */
  lemma CardTextOpening(e: seq<(string, Json)>)
    requires |e| >= 3 && e[0] == ("BEGIN", JStr("VCARD")) && e[1] == ("VERSION", JStr("4.0"))
    ensures StartsWith(CardText(e), "BEGIN:VCARD\nVERSION:4.0\n")
  {
    var lines := VCardLines(e);
    assert lines[0] + "\n" + lines[1] + "\n" == "BEGIN:VCARD\nVERSION:4.0\n" by {
      assert lines[0] == "BEGIN:VCARD";
      assert lines[1] == "VERSION:4.0";
    }
    JoinOpening(lines, "\n");
  }

  /** Properties that close with `END` give a text that closes with that
      line. */
  lemma CardTextClosing(e: seq<(string, Json)>)
    requires |e| >= 2 && e[|e| - 1] == ("END", JStr("VCARD"))
    ensures EndsWith(CardText(e), "\nEND:VCARD")
  {
    var lines := VCardLines(e);
    assert "\n" + lines[|lines| - 1] == "\nEND:VCARD" by {
      assert lines[|lines| - 1] == "END:VCARD";
    }
    JoinClosing(lines, "\n");
  }

  /** `create_vcard`. Whatever the input, the card opens with `BEGIN:VCARD`
      and `VERSION:4.0` and closes with `END:VCARD`. */
  function CreateVCard(firstName: Json, lastName: Json, function_: Json, phone1: Json, phone2: Json,
                       email: Json, organisation: Json): (card: string)
    ensures StartsWith(card, "BEGIN:VCARD\nVERSION:4.0\n")
    ensures EndsWith(card, "\nEND:VCARD")
  {
    var e := VCardEntries(firstName, lastName, function_, phone1, phone2, email, organisation);
    CardTextOpening(e);
    CardTextClosing(e);
    CardText(e)
  }

  /** Of all `KIND` values, a filtered draft carries exactly the one at
      position 5 of the draft. */
  lemma DraftKind(d: seq<(string, Json)>, k: string, x: string)
    requires DraftShape(d) && d[5] == ("KIND", JStr(k)) && k != ""
    ensures ("KIND", JStr(x)) in FilterEntries(d, Truthy) <==> x == k
  {
    var e := FilterEntries(d, Truthy);
    assert Truthy(d[5].1);
    assert d[5] in e;
    if ("KIND", JStr(x)) in e {
      FilterFromEntries(d, Truthy);
      var j :| 0 <= j < |e| && e[j] == ("KIND", JStr(x));
      assert e[j] in d;
      var i :| 0 <= i < |d| && d[i] == ("KIND", JStr(x));
      assert Keys(d)[i] == "KIND";
      KindKeyPosition(i);
    }
  }

  /** `KIND` is the only key of length four, so it occurs only at position 5. */
  lemma KindKeyPosition(i: int)
    requires 0 <= i < |VCardKeys| && VCardKeys[i] == "KIND"
    ensures i == 5
  {
    assert |VCardKeys[i]| == 4;
  }

  /** `KIND:org` is chosen exactly when no name and no function is given but
      an organisation is; every other card is `KIND:individual`. */
  lemma KindProperty(firstName: Json, lastName: Json, function_: Json, phone1: Json, phone2: Json,
                     email: Json, organisation: Json)
    ensures var e := VCardEntries(firstName, lastName, function_, phone1, phone2, email, organisation);
      ("KIND", JStr("org")) in e <==>
        !Truthy(firstName) && !Truthy(lastName) && !Truthy(function_) && Truthy(organisation)
    ensures var e := VCardEntries(firstName, lastName, function_, phone1, phone2, email, organisation);
      ("KIND", JStr("individual")) in e <==>
        Truthy(firstName) || Truthy(lastName) || Truthy(function_) || !Truthy(organisation)
  {
    var d := VCardDraft(firstName, lastName, function_, phone1, phone2, email, organisation);
    var k := Kind(firstName, lastName, function_, organisation);
    DraftKind(d, k, "org");
    DraftKind(d, k, "individual");
  }

  /** The full name `FN` is on the card exactly when a first or last name
      is given. */
  lemma VCardFullName(firstName: Json, lastName: Json, function_: Json, phone1: Json, phone2: Json,
                      email: Json, organisation: Json)
    ensures var e := VCardEntries(firstName, lastName, function_, phone1, phone2, email, organisation);
      ("FN", ConstructName(firstName, lastName)) in e <==> Truthy(firstName) || Truthy(lastName)
  {
    var d := VCardDraft(firstName, lastName, function_, phone1, phone2, email, organisation);
    FilterMembership(d, Truthy, 2);
    assert d[2] == ("FN", ConstructName(firstName, lastName));
  }

  /** The structured name `N`, family name first as in section 6.2.2 of
      RFC 6350, is on the card exactly when a first or last name is given. */
  lemma VCardStructuredName(firstName: Json, lastName: Json, function_: Json, phone1: Json, phone2: Json,
                            email: Json, organisation: Json)
    ensures var e := VCardEntries(firstName, lastName, function_, phone1, phone2, email, organisation);
      ("N", JStr(Str(lastName) + ";" + Str(firstName) + ";;;")) in e <==> Truthy(firstName) || Truthy(lastName)
  {
    var d := VCardDraft(firstName, lastName, function_, phone1, phone2, email, organisation);
    var n := ("N", JStr(Str(lastName) + ";" + Str(firstName) + ";;;"));
    if Truthy(firstName) || Truthy(lastName) {
      FilterMembership(d, Truthy, 3);
      assert d[3] == n;
    } else {
      NameAbsent(d, n);
    }
  }

  /** A draft whose `N` entry is not `n` has no `n` on its card. */
  lemma NameAbsent(d: seq<(string, Json)>, n: (string, Json))
    requires DraftShape(d) && n.0 == "N" && d[3] != n
    ensures n !in FilterEntries(d, Truthy)
  {
    if n in FilterEntries(d, Truthy) {
      FilterFromEntries(d, Truthy);
      var i :| 0 <= i < |d| && d[i] == n;
      assert Keys(d)[i] == "N";
      NKeyPosition(i);
      assert false;
    }
  }

  /** The other properties: `ORG`, `TITLE`, both work phones and `EMAIL` are
      on the card, with their values, exactly when those are non-empty. */
  lemma VCardValues(firstName: Json, lastName: Json, function_: Json, phone1: Json, phone2: Json,
                    email: Json, organisation: Json)
    ensures var e := VCardEntries(firstName, lastName, function_, phone1, phone2, email, organisation);
      ("ORG", organisation) in e <==> Truthy(organisation)
    ensures var e := VCardEntries(firstName, lastName, function_, phone1, phone2, email, organisation);
      ("TITLE", function_) in e <==> Truthy(function_)
    ensures var e := VCardEntries(firstName, lastName, function_, phone1, phone2, email, organisation);
      ("TEL;TYPE=WORK,X-1", phone1) in e <==> Truthy(phone1)
    ensures var e := VCardEntries(firstName, lastName, function_, phone1, phone2, email, organisation);
      ("TEL;TYPE=WORK,X-2", phone2) in e <==> Truthy(phone2)
    ensures var e := VCardEntries(firstName, lastName, function_, phone1, phone2, email, organisation);
      ("EMAIL", email) in e <==> Truthy(email)
  {
    var d := VCardDraft(firstName, lastName, function_, phone1, phone2, email, organisation);
    FilterMembership(d, Truthy, 4);
    FilterMembership(d, Truthy, 6);
    FilterMembership(d, Truthy, 7);
    FilterMembership(d, Truthy, 8);
    FilterMembership(d, Truthy, 9);
  }

  /** `N` is the only key of length one, so it occurs only at position 3. */
  lemma NKeyPosition(i: int)
    requires 0 <= i < |VCardKeys| && VCardKeys[i] == "N"
    ensures i == 3
  {
    assert |VCardKeys[i]| == 1;
  }

  /** The company card passes the company name as the last name, so it is
      never `KIND:org`. */
  lemma CompanyCardIsIndividual(name: Json, phone: Json, email: Json)
    ensures ("KIND", JStr("individual")) in VCardEntries(JStr(""), name, JStr(""), phone, JStr(""), email, name)
    ensures ("KIND", JStr("org")) !in VCardEntries(JStr(""), name, JStr(""), phone, JStr(""), email, name)
  {
    KindProperty(JStr(""), name, JStr(""), phone, JStr(""), email, name);
  }

  // ---------------------------------------------------------------------
  // save_vcard (the choice of the file path)
  // ---------------------------------------------------------------------

  /** The file `save_vcard` writes, or `None` when no directory is given. A
      `vcf_dir` of `None` is the empty string here: both are falsy. */
  function SavePath(vcfDir: string, filename: Json, organisationId: Json): (r: Result<Option<string>, PyError>)
    ensures vcfDir == "" ==> r == Ok(None)
    ensures r.Err? <==> vcfDir != "" && filename == JNull && organisationId == JNull
    ensures r.Err? ==> r.error == ValueError
    ensures vcfDir != "" && r.Ok? ==> r.value.Some?
    ensures vcfDir != "" && r.Ok? ==>
      EndsWith(r.value.value, (if filename == JNull then Str(organisationId) else Str(filename)) + ".vcf")
  {
    if vcfDir == "" then Ok(None)
    else if filename == JNull then
      if organisationId == JNull then Err(ValueError)
      else Ok(Some(PathJoin(vcfDir, Str(organisationId) + ".vcf")))
    else if organisationId != JNull then
      Ok(Some(PathJoin(PathJoin(vcfDir, Str(organisationId)), Str(filename) + ".vcf")))
    else Ok(Some(PathJoin(vcfDir, Str(filename) + ".vcf")))
  }

  /** Only an organisation id, under a directory that does not end in `/`:
      the file is `dir/<org>.vcf`. */
  lemma SavePathCompany(vcfDir: string, organisationId: Json)
    requires vcfDir != "" && vcfDir[|vcfDir| - 1] != '/'
    requires organisationId != JNull && !StartsWith(Str(organisationId), "/")
    ensures SavePath(vcfDir, JNull, organisationId) == Ok(Some(vcfDir + "/" + Str(organisationId) + ".vcf"))
  {
    var org := Str(organisationId);
    NoLeadingSlash(org, ".vcf");
    assert PathJoin(vcfDir, org + ".vcf") == vcfDir + "/" + (org + ".vcf");
    assert vcfDir + "/" + (org + ".vcf") == vcfDir + "/" + org + ".vcf";
  }

  /** Both a filename and a non-empty organisation id: the file is
      `dir/<org>/<filename>.vcf`. */
  lemma SavePathNested(vcfDir: string, filename: Json, organisationId: Json)
    requires vcfDir != "" && vcfDir[|vcfDir| - 1] != '/'
    requires filename != JNull && !StartsWith(Str(filename), "/")
    requires organisationId != JNull && !StartsWith(Str(organisationId), "/")
    requires Str(organisationId) != "" && Str(organisationId)[|Str(organisationId)| - 1] != '/'
    ensures SavePath(vcfDir, filename, organisationId) ==
      Ok(Some(vcfDir + "/" + Str(organisationId) + "/" + Str(filename) + ".vcf"))
  {
    var org := Str(organisationId);
    var name := Str(filename);
    NoLeadingSlash(name, ".vcf");
    var folder := PathJoin(vcfDir, org);
    assert folder == vcfDir + "/" + org;
    assert folder[|folder| - 1] == org[|org| - 1];
    assert PathJoin(folder, name + ".vcf") == folder + "/" + (name + ".vcf");
    assert folder + "/" + (name + ".vcf") == vcfDir + "/" + org + "/" + name + ".vcf";
  }

  /** A filename with no organisation id, or an empty one: the file is
      `dir/<filename>.vcf`. */
  lemma SavePathFlat(vcfDir: string, filename: Json, organisationId: Json)
    requires vcfDir != "" && vcfDir[|vcfDir| - 1] != '/'
    requires filename != JNull && !StartsWith(Str(filename), "/")
    requires organisationId == JNull || Str(organisationId) == ""
    ensures SavePath(vcfDir, filename, organisationId) == Ok(Some(vcfDir + "/" + Str(filename) + ".vcf"))
  {
    var name := Str(filename);
    NoLeadingSlash(name, ".vcf");
    if organisationId != JNull {
      var folder := PathJoin(vcfDir, "");
      assert folder == vcfDir + "/";
      assert folder[|folder| - 1] == '/';
      assert PathJoin(folder, name + ".vcf") == folder + (name + ".vcf");
    } else {
      assert PathJoin(vcfDir, name + ".vcf") == vcfDir + "/" + (name + ".vcf");
    }
    assert vcfDir + "/" + (name + ".vcf") == vcfDir + "/" + name + ".vcf";
  }

  lemma NoLeadingSlash(a: string, b: string)
    requires !StartsWith(a, "/") && |b| > 0 && b[0] != '/'
    ensures !StartsWith(a + b, "/")
  {
    var s := a + b;
    assert s[..1] == [s[0]];
    if a != "" {
      assert a[..1] == [a[0]];
      assert s[0] == a[0];
    } else {
      assert s[0] == b[0];
    }
  }

  // ---------------------------------------------------------------------
  // json_to_csv
  // ---------------------------------------------------------------------

  function ContactName(data: Json): (name: Json)
    ensures name != JNull
  {
    ConstructName(Field(data, "kontaktPersonVorname"), Field(data, "kontaktPersonName"))
  }

  function CompanyId(data: Json): (id: Json)
    ensures id != JNull
  {
    Field(data, "eibNummer")
  }

  /** The contact-person card: the contact's name, function, phones and
      email, with the company name as organisation. */
  function ContactCard(data: Json): (card: string)
    ensures StartsWith(card, "BEGIN:VCARD\nVERSION:4.0\n") && EndsWith(card, "\nEND:VCARD")
  {
    CreateVCard(
      Field(data, "kontaktPersonVorname"),
      Field(data, "kontaktPersonName"),
      Field(data, "kontaktPersonFunktion"),
      Field(data, "kontaktPersonTelefon1"),
      Field(data, "kontaktPersonTelefon2"),
      Field(data, "kontaktPersonEmail"),
      Field(data, "eibName"))
  }

  /** The company card: the company name is both the last name and the
      organisation. */
  function CompanyCard(data: Json): (card: string)
    ensures StartsWith(card, "BEGIN:VCARD\nVERSION:4.0\n") && EndsWith(card, "\nEND:VCARD")
  {
    CreateVCard(
      JStr(""),
      Field(data, "eibName"),
      JStr(""),
      Field(data, "eibTelefon"),
      JStr(""),
      Field(data, "eibEmail"),
      Field(data, "eibName"))
  }

  /** Where the contact card goes: named after the contact, inside the
      company-id folder. */
  function ContactCardPath(data: Json, vcfDir: string): (p: string)
    requires vcfDir != ""
    ensures SavePath(vcfDir, ContactName(data), CompanyId(data)) == Ok(Some(p))
    ensures EndsWith(p, ".vcf")
  {
    var p := SavePath(vcfDir, ContactName(data), CompanyId(data)).value.value;
    EndsWithSuffix(p, Str(ContactName(data)), ".vcf");
    p
  }

  /** Where the company card goes: the company id is passed as the filename,
      so the card is `<dir>/<company id>.vcf`. */
  function CompanyCardPath(data: Json, vcfDir: string): (p: string)
    requires vcfDir != ""
    ensures SavePath(vcfDir, CompanyId(data), JNull) == Ok(Some(p))
    ensures EndsWith(p, Str(CompanyId(data)) + ".vcf")
    ensures EndsWith(p, ".vcf")
  {
    var p := SavePath(vcfDir, CompanyId(data), JNull).value.value;
    EndsWithSuffix(p, Str(CompanyId(data)), ".vcf");
    p
  }

  /** A card file written by `json_to_csv`. */
  datatype CardFile = CardFile(path: string, content: string)

  function ContactFile(data: Json, vcfDir: string): (f: CardFile)
    requires vcfDir != ""
    ensures EndsWith(f.path, ".vcf")
  {
    CardFile(ContactCardPath(data, vcfDir), ContactCard(data))
  }

  function CompanyFile(data: Json, vcfDir: string): (f: CardFile)
    requires vcfDir != ""
    ensures EndsWith(f.path, ".vcf")
  {
    CardFile(CompanyCardPath(data, vcfDir), CompanyCard(data))
  }

  /** The cards `json_to_csv` writes, in order: the contact card when there
      is a contact name, then the company card, whenever a directory is
      given. */
  function CardFiles(data: Json, vcfDir: string): (cards: seq<CardFile>)
    ensures |cards| <= 2
    ensures |cards| == 0 <==> vcfDir == ""
    ensures |cards| == 2 <==> vcfDir != "" && Truthy(ContactName(data))
    ensures |cards| == 2 ==> cards[0] == ContactFile(data, vcfDir)
    ensures |cards| > 0 ==> cards[|cards| - 1] == CompanyFile(data, vcfDir)
  {
    if vcfDir == "" then []
    else
      var company := CompanyFile(data, vcfDir);
      if Truthy(ContactName(data)) then [ContactFile(data, vcfDir), company] else [company]
  }

  /** The `vcard_path` cell: the contact card's path, or `""` when there is
      no contact name or no directory. */
  function VCardPathCell(data: Json, vcfDir: string): (p: string)
    ensures !(Truthy(ContactName(data)) && vcfDir != "") ==> p == ""
    ensures Truthy(ContactName(data)) && vcfDir != "" ==> p == CardFiles(data, vcfDir)[0].path && p != ""
  {
    if Truthy(ContactName(data)) && vcfDir != "" then
      var p := ContactCardPath(data, vcfDir);
      assert EndsWith(p, Str(ContactName(data)) + ".vcf");
      p
    else ""
  }

  /** `x or "Schweiz"` on a lookup result: a falsy value is replaced, a
      truthy one kept, an exception passed on. */
  function OrSchweiz(r: Result<Json, PyError>): (o: Result<Json, PyError>)
    ensures o.Ok? <==> r.Ok?
    ensures o.Err? ==> o == r
    ensures o.Ok? ==> Truthy(o.value)
    ensures r.Ok? && Truthy(r.value) ==> o == r
  {
    if r.Ok? && !Truthy(r.value) then Ok(JStr("Schweiz")) else r
  }

  /** `'TRUE' if get(...) == code else 'FALSE'`: `TRUE` exactly for that
      code; an exception from the lookup is passed on. */
  function CodeFlag(r: Result<Json, PyError>, code: string): (f: Result<Json, PyError>)
    ensures f.Ok? <==> r.Ok?
    ensures f.Err? ==> f == r
    ensures f.Ok? ==> f.value == JStr("TRUE") || f.value == JStr("FALSE")
    ensures f.Ok? ==> (f.value == JStr("TRUE") <==> r.value == JStr(code))
  {
    if r.Ok? then Ok(JStr(BoolText(r.value == JStr(code)))) else r
  }

  /** A text result as a cell: the text as a string value, or the same
      exception. */
  function TextCell(r: Result<string, PyError>): (c: Result<Json, PyError>)
    ensures c.Ok? <==> r.Ok?
    ensures c.Ok? ==> c.value == JStr(r.value) && Str(c.value) == r.value
    ensures c.Err? ==> c.error == r.error
  {
    if r.Ok? then Ok(JStr(r.value)) else Err(r.error)
  }

  /** The fourteen cell values of the row, in header order, each either a
      value or the exception its expression raises. */
  function RowCells(data: Json, language: string, vcardPath: string): (cells: seq<Result<Json, PyError>>)
    ensures |cells| == |HeaderNames|
  {
    var lang := Capitalize(language);
    [ Lookup(data, "eibAdresse", ["plz"]),
      OrSchweiz(Lookup(data, "eibAdresse", ["land", "text" + lang])),
      Ok(Field(data, "eibName")),
      TextCell(ExtractSubCsv(Field(data, "taetigkeitList"), "kurzbeschreibung")),
      Ok(Field(data, "mindestdauerEinsatzInWochen")),
      Lookup(data, "arbeitszeitmodell", ["text" + lang]),
      CodeFlag(Lookup(data, "wochenendarbeit", ["code"]), "M"),
      CodeFlag(Lookup(data, "nachtarbeit", ["code"]), "J"),
      Ok(JStr(ConvertBooleanValue(Field(data, "unterkunftAngeboten")))),
      Ok(JStr(ConvertBooleanValue(Field(data, "verpflegungAngeboten")))),
      TextCell(ExtractKursCodes(Field(data, "kursZiviList"))),
      Ok(ContactName(data)),
      Ok(JStr(vcardPath)),
      Ok(JStr(ConvertBooleanValue(Field(data, "schwerpunktprogramm"))))
    ]
  }

  /** Evaluating the cells left to right: the first exception propagates. */
  function Collect(cells: seq<Result<Json, PyError>>): (r: Result<seq<Json>, PyError>)
    ensures r.Ok? <==> forall i :: 0 <= i < |cells| ==> cells[i].Ok?
    ensures r.Ok? ==> |r.value| == |cells| && forall i :: 0 <= i < |cells| ==> r.value[i] == cells[i].value
    ensures r.Err? ==>
      exists i :: 0 <= i < |cells| && cells[i] == Err(r.error) && forall j :: 0 <= j < i ==> cells[j].Ok?
  {
    if |cells| == 0 then Ok([])
    else if cells[0].Err? then Err(cells[0].error)
    else
      match Collect(cells[1..])
      case Err(e) =>
        ghost var i :| 0 <= i < |cells[1..]| && cells[1..][i] == Err(e) &&
          forall j :: 0 <= j < i ==> cells[1..][j].Ok?;
        assert cells[i + 1] == Err(e);
        assert forall j :: 1 <= j < i + 1 ==> cells[j] == cells[1..][j - 1];
        Err(e)
      case Ok(rest) =>
        assert forall i :: 1 <= i < |cells| ==> cells[i] == cells[1..][i - 1];
        Ok([cells[0].value] + rest)
  }

  /** A cell wrapped in double quotes; quotes inside it are not doubled. */
  function Quote(s: string): (q: string)
    ensures |q| == |s| + 2 && q[0] == '"' && q[|q| - 1] == '"'
    ensures q[1..|q| - 1] == s
  {
    "\"" + s + "\""
  }

  function QuoteAll(cells: seq<string>): (quoted: seq<string>)
    ensures |quoted| == |cells|
    ensures forall i :: 0 <= i < |cells| ==> quoted[i] == Quote(cells[i])
  {
    seq(|cells|, i requires 0 <= i < |cells| => Quote(cells[i]))
  }

  predicate QuoteFree(cells: seq<string>)
  {
    forall i :: 0 <= i < |cells| ==> '"' !in cells[i]
  }

  /** How a CSV reader (section 2 of RFC 4180) delimits the first field of
      `s`: the number of characters before the first comma that is not
      inside double quotes. `quoted` says whether the scan starts inside
      quotes. */
  function FieldLength(s: string, quoted: bool): (n: nat)
    ensures n <= |s|
    ensures n < |s| ==> s[n] == ','
  {
    if |s| == 0 then 0
    else if s[0] == ',' && !quoted then 0
    else 1 + FieldLength(s[1..], if s[0] == '"' then !quoted else quoted)
  }

  /** The fields a CSV reader finds in a line, each with its quotes kept. */
  function CsvFields(s: string): (fields: seq<string>)
    ensures |fields| >= 1
    decreases |s|
  {
    var n := FieldLength(s, false);
    if n == |s| then [s] else [s[..n]] + CsvFields(s[n + 1..])
  }

  /** The reader only cuts at commas: joining its fields with commas gives
      back the line. */
  lemma {:induction false} CsvFieldsJoin(s: string)
    ensures Join(CsvFields(s), Delimiter) == s
    decreases |s|
  {
    var n := FieldLength(s, false);
    if n == |s| {
      assert CsvFields(s) == [s];
    } else {
      var rest := CsvFields(s[n + 1..]);
      var parts := [s[..n]] + rest;
      assert CsvFields(s) == parts;
      assert parts[0] == s[..n] && parts[1..] == rest;
      assert Join(parts, Delimiter) == s[..n] + Delimiter + Join(rest, Delimiter);
      CsvFieldsJoin(s[n + 1..]);
      assert Delimiter == [s[n]];
      assert s == s[..n] + [s[n]] + s[n + 1..];
    }
  }

  /** Inside quotes, a text without quotes is read through to its end. */
  lemma {:induction false} FieldLengthInside(c: string, t: string)
    requires '"' !in c
    ensures FieldLength(c + t, true) == |c| + FieldLength(t, true)
  {
    if |c| == 0 {
      assert c + t == t;
    } else {
      assert (c + t)[0] == c[0];
      assert (c + t)[1..] == c[1..] + t;
      FieldLengthInside(c[1..], t);
    }
  }

  /** A quoted cell without quotes inside is read as one field, commas
      inside it included. */
  lemma QuotedFieldLength(c: string, t: string)
    requires '"' !in c
    ensures FieldLength(Quote(c) + t, false) == |c| + 2 + FieldLength(t, false)
  {
    var s := Quote(c) + t;
    assert s[0] == '"';
    assert s[1..] == c + ("\"" + t);
    FieldLengthInside(c, "\"" + t);
    assert ("\"" + t)[0] == '"';
    assert ("\"" + t)[1..] == t;
  }

  /** A quoted cell without quotes inside is a whole line's only field. */
  lemma CsvFieldsQuoted(c: string)
    requires '"' !in c
    ensures CsvFields(Quote(c)) == [Quote(c)]
  {
    assert Quote(c) + "" == Quote(c);
    QuotedFieldLength(c, "");
  }

  /** A quoted cell without quotes inside, then a comma: the cell is the
      first field and the reader goes on after the comma. */
  lemma CsvFieldsAfterQuoted(c: string, rest: string)
    requires '"' !in c
    ensures CsvFields(Quote(c) + ("," + rest)) == [Quote(c)] + CsvFields(rest)
  {
    var s := Quote(c) + ("," + rest);
    QuotedFieldLength(c, "," + rest);
    assert ("," + rest)[0] == ',';
    var n := |c| + 2;
    assert s[..n] == Quote(c);
    assert s[n + 1..] == rest;
  }

  /** A CSV reader reads back the quoted cells of a joined row whose cells
      hold no double quote. */
  lemma {:induction false} QuotedJoinFields(cells: seq<string>)
    requires |cells| >= 1 && QuoteFree(cells)
    ensures CsvFields(Join(QuoteAll(cells), Delimiter)) == QuoteAll(cells)
  {
    var quoted := QuoteAll(cells);
    if |cells| == 1 {
      assert Join(quoted, Delimiter) == Quote(cells[0]);
      CsvFieldsQuoted(cells[0]);
    } else {
      var tail := QuoteAll(cells[1..]);
      assert quoted[1..] == tail;
      assert Join(quoted, Delimiter) == Quote(cells[0]) + ("," + Join(tail, Delimiter));
      CsvFieldsAfterQuoted(cells[0], Join(tail, Delimiter));
      QuotedJoinFields(cells[1..]);
      assert quoted == [Quote(cells[0])] + tail;
    }
  }

  /** Each cell wrapped in double quotes, the cells joined by the delimiter.
      A CSV reader gets one field per cell back unless a cell holds a
      double quote, commas inside cells included. */
  function RenderRow(cells: seq<string>): (row: string)
    ensures |cells| >= 1 && QuoteFree(cells) ==> CsvFields(row) == QuoteAll(cells)
  {
    var row := Join(QuoteAll(cells), Delimiter);
    if |cells| >= 1 && QuoteFree(cells) then
      QuotedJoinFields(cells);
      row
    else row
  }

  /** The cells of the row as text, `str(item)` of each value. */
  function RowTexts(data: Json, language: string, vcardPath: string): (r: Result<seq<string>, PyError>)
    ensures r.Ok? ==> |r.value| == |HeaderNames|
  {
    match Collect(RowCells(data, language, vcardPath))
    case Err(e) => Err(e)
    case Ok(values) => Ok(seq(|values|, i requires 0 <= i < |values| => Str(values[i])))
  }

  /** The row `json_to_csv` returns. It raises exactly when a cell does;
      otherwise, when no cell holds a double quote, a CSV reader gets the
      quoted cells back. */
  function CsvRow(data: Json, language: string, vcfDir: string): (r: Result<string, PyError>)
    ensures var t := RowTexts(data, language, VCardPathCell(data, vcfDir));
      (r.Ok? <==> t.Ok?) && (r.Err? ==> r.error == t.error)
    ensures var t := RowTexts(data, language, VCardPathCell(data, vcfDir));
      r.Ok? && QuoteFree(t.value) ==> CsvFields(r.value) == QuoteAll(t.value)
  {
    RenderTexts(RowTexts(data, language, VCardPathCell(data, vcfDir)))
  }

  /** The joined row of the cell texts, or the exception that stopped them. */
  function RenderTexts(t: Result<seq<string>, PyError>): (r: Result<string, PyError>)
    ensures (r.Ok? <==> t.Ok?) && (r.Err? ==> r.error == t.error)
    ensures r.Ok? && |t.value| >= 1 && QuoteFree(t.value) ==> CsvFields(r.value) == QuoteAll(t.value)
  {
    match t
    case Err(e) => Err(e)
    case Ok(texts) => Ok(RenderRow(texts))
  }

  /** With no comma inside any cell, even a plain split at the delimiter
      gives back the quoted cells. */
  lemma RenderRowColumns(cells: seq<string>)
    requires |cells| >= 1
    requires forall i :: 0 <= i < |cells| ==> ',' !in cells[i]
    ensures Split(RenderRow(cells), ',') == QuoteAll(cells)
  {
    var quoted := QuoteAll(cells);
    forall i | 0 <= i < |quoted|
      ensures ',' !in quoted[i]
    {
      assert quoted[i] == "\"" + cells[i] + "\"";
    }
    JoinSplit(quoted, ',');
  }

  /** A row whose cells hold no double quote reads, with a CSV reader, as
      many columns as the header, whatever commas the cells hold. */
  lemma CsvRowMatchesHeader(data: Json, language: string, vcfDir: string)
    requires RowTexts(data, language, VCardPathCell(data, vcfDir)).Ok?
    requires QuoteFree(RowTexts(data, language, VCardPathCell(data, vcfDir)).value)
    ensures CsvRow(data, language, vcfDir).Ok?
    ensures |CsvFields(CsvRow(data, language, vcfDir).value)| == |Split(Header, ',')|
  {
    var t := RowTexts(data, language, VCardPathCell(data, vcfDir));
    var r := CsvRow(data, language, vcfDir);
    assert CsvFields(r.value) == QuoteAll(t.value);
    assert |t.value| == |HeaderNames|;
    HeaderColumns();
  }

  predicate IsFlagText(s: string)
  {
    s == "TRUE" || s == "FALSE"
  }

  /** Text `k` of a successful row is `str()` of cell `k`. */
  lemma RowTextAt(data: Json, language: string, vcardPath: string, k: nat)
    requires k < |HeaderNames|
    ensures var r := RowTexts(data, language, vcardPath);
      r.Ok? ==> (RowCells(data, language, vcardPath)[k].Ok? &&
                 r.value[k] == Str(RowCells(data, language, vcardPath)[k].value))
  {
    var c := Collect(RowCells(data, language, vcardPath));
    if c.Ok? {
      assert |c.value| == |HeaderNames|;
    }
  }

  /** The postcode column is `str()` of the address's `plz`. */
  lemma PostcodeColumn(data: Json, language: string, vcardPath: string)
    ensures var r := RowTexts(data, language, vcardPath);
      r.Ok? ==> (Lookup(data, "eibAdresse", ["plz"]).Ok? &&
                 r.value[0] == Str(Lookup(data, "eibAdresse", ["plz"]).value))
  {
    RowTextAt(data, language, vcardPath, 0);
    assert RowCells(data, language, vcardPath)[0] == Lookup(data, "eibAdresse", ["plz"]);
  }

  /** The company-name column is `str()` of `eibName`. */
  lemma CompanyNameColumn(data: Json, language: string, vcardPath: string)
    ensures var r := RowTexts(data, language, vcardPath);
      r.Ok? ==> r.value[2] == Str(Field(data, "eibName"))
  {
    var r := RowTexts(data, language, vcardPath);
    if r.Ok? {
      var cells := RowCells(data, language, vcardPath);
      RowTextAt(data, language, vcardPath, 2);
      assert cells[2].value == Field(data, "eibName");
      assert r.value[2] == Str(cells[2].value);
    }
  }

  /** The minimum-duration column is `str()` of `mindestdauerEinsatzInWochen`. */
  lemma DurationColumn(data: Json, language: string, vcardPath: string)
    ensures var r := RowTexts(data, language, vcardPath);
      r.Ok? ==> r.value[4] == Str(Field(data, "mindestdauerEinsatzInWochen"))
  {
    var r := RowTexts(data, language, vcardPath);
    if r.Ok? {
      var cells := RowCells(data, language, vcardPath);
      RowTextAt(data, language, vcardPath, 4);
      assert cells[4].value == Field(data, "mindestdauerEinsatzInWochen");
      assert r.value[4] == Str(cells[4].value);
    }
  }

  /** The working-time-model column is `str()` of its `text<Lang>` lookup. */
  lemma WorkTimeColumn(data: Json, language: string, vcardPath: string)
    ensures var r := RowTexts(data, language, vcardPath);
      r.Ok? ==> (Lookup(data, "arbeitszeitmodell", ["text" + Capitalize(language)]).Ok? &&
                 r.value[5] == Str(Lookup(data, "arbeitszeitmodell", ["text" + Capitalize(language)]).value))
  {
    var cells := RowCells(data, language, vcardPath);
    var c := Collect(cells);
    if c.Ok? {
      assert c.value[5] == cells[5].value;
    }
  }

  /** The contact-name column is the contact's name. */
  lemma ContactNameColumn(data: Json, language: string, vcardPath: string)
    ensures var r := RowTexts(data, language, vcardPath);
      r.Ok? ==> r.value[11] == Str(ContactName(data))
  {
    RowTextAt(data, language, vcardPath, 11);
    assert RowCells(data, language, vcardPath)[11] == Ok(ContactName(data));
  }

  /** The activities column: the activities' short descriptions joined by
      `", "`. */
  lemma ActivitiesColumn(data: Json, language: string, vcardPath: string)
    ensures var r := RowTexts(data, language, vcardPath);
      r.Ok? ==> (ExtractSubCsv(Field(data, "taetigkeitList"), "kurzbeschreibung").Ok? &&
                 r.value[3] == ExtractSubCsv(Field(data, "taetigkeitList"), "kurzbeschreibung").value)
  {
    var cells := RowCells(data, language, vcardPath);
    var c := Collect(cells);
    if c.Ok? {
      assert c.value[3] == cells[3].value;
    }
  }

  /** The courses column: the course codes joined by `", "`. */
  lemma CoursesColumn(data: Json, language: string, vcardPath: string)
    ensures var r := RowTexts(data, language, vcardPath);
      r.Ok? ==> (ExtractKursCodes(Field(data, "kursZiviList")).Ok? &&
                 r.value[10] == ExtractKursCodes(Field(data, "kursZiviList")).value)
  {
    RowTextAt(data, language, vcardPath, 10);
    assert RowCells(data, language, vcardPath)[10] == TextCell(ExtractKursCodes(Field(data, "kursZiviList")));
  }

  /** The weekend and night-work cells say `TRUE` exactly for the codes `M`
      and `J`. */
  lemma CodeFlagCells(data: Json, language: string, vcardPath: string)
    ensures var r := RowTexts(data, language, vcardPath);
      r.Ok? ==> r.value[6] == (if Lookup(data, "wochenendarbeit", ["code"]) == Ok(JStr("M")) then "TRUE" else "FALSE")
    ensures var r := RowTexts(data, language, vcardPath);
      r.Ok? ==> r.value[7] == (if Lookup(data, "nachtarbeit", ["code"]) == Ok(JStr("J")) then "TRUE" else "FALSE")
  {
    var cells := RowCells(data, language, vcardPath);
    RowTextAt(data, language, vcardPath, 6);
    RowTextAt(data, language, vcardPath, 7);
    assert cells[6] == CodeFlag(Lookup(data, "wochenendarbeit", ["code"]), "M");
    assert cells[7] == CodeFlag(Lookup(data, "nachtarbeit", ["code"]), "J");
    CodeFlagText(Lookup(data, "wochenendarbeit", ["code"]), "M");
    CodeFlagText(Lookup(data, "nachtarbeit", ["code"]), "J");
  }

  /** The text of a flag cell that did not raise. */
  lemma CodeFlagText(r: Result<Json, PyError>, code: string)
    ensures CodeFlag(r, code).Ok? ==>
      Str(CodeFlag(r, code).value) == if r == Ok(JStr(code)) then "TRUE" else "FALSE"
  {
  }

  /** Accommodation, meals and the focus programme go through
      `convert_boolean_value`; all five flag cells are `TRUE` or `FALSE`. */
  lemma BooleanCells(data: Json, language: string, vcardPath: string)
    ensures var r := RowTexts(data, language, vcardPath);
      r.Ok? ==> r.value[8] == ConvertBooleanValue(Field(data, "unterkunftAngeboten"))
    ensures var r := RowTexts(data, language, vcardPath);
      r.Ok? ==> r.value[9] == ConvertBooleanValue(Field(data, "verpflegungAngeboten"))
    ensures var r := RowTexts(data, language, vcardPath);
      r.Ok? ==> r.value[13] == ConvertBooleanValue(Field(data, "schwerpunktprogramm"))
    ensures var r := RowTexts(data, language, vcardPath);
      r.Ok? ==> (IsFlagText(r.value[6]) && IsFlagText(r.value[7]) && IsFlagText(r.value[8]) &&
                 IsFlagText(r.value[9]) && IsFlagText(r.value[13]))
  {
    CodeFlagCells(data, language, vcardPath);
    RowTextAt(data, language, vcardPath, 8);
    RowTextAt(data, language, vcardPath, 9);
    RowTextAt(data, language, vcardPath, 13);
  }

  /** The country cell is never empty: an empty `text<Lang>` lookup gives
      `Schweiz`, any other value its text. */
  lemma CountryCell(data: Json, language: string, vcardPath: string)
    ensures var r := RowTexts(data, language, vcardPath);
      r.Ok? ==> r.value[1] != ""
    ensures var r := RowTexts(data, language, vcardPath);
      var land := Lookup(data, "eibAdresse", ["land", "text" + Capitalize(language)]);
      r.Ok? ==> land.Ok? && r.value[1] == (if Truthy(land.value) then Str(land.value) else "Schweiz")
  {
    var cells := RowCells(data, language, vcardPath);
    var c := Collect(cells);
    if c.Ok? {
      assert c.value[1] == cells[1].value;
    }
  }

  /** The `vcard_path` cell holds the contact card's path, and is empty
      exactly when there is no contact name or no directory. */
  lemma VCardPathColumn(data: Json, language: string, vcfDir: string)
    ensures var r := RowTexts(data, language, VCardPathCell(data, vcfDir));
      r.Ok? ==> r.value[12] == VCardPathCell(data, vcfDir)
    ensures var r := RowTexts(data, language, VCardPathCell(data, vcfDir));
      r.Ok? ==> (r.value[12] == "" <==> !Truthy(ContactName(data)) || vcfDir == "")
  {
    VCardPathCopied(data, language, VCardPathCell(data, vcfDir));
  }

  /** Whatever path it is given, the row carries it unchanged in its
      thirteenth column. */
  lemma VCardPathCopied(data: Json, language: string, vcardPath: string)
    ensures var r := RowTexts(data, language, vcardPath);
      r.Ok? ==> r.value[12] == vcardPath
  {
    var cells := RowCells(data, language, vcardPath);
    var c := Collect(cells);
    if c.Ok? {
      assert c.value[12] == cells[12].value;
    }
  }

  /** The abstract contents of the vCard directory after writing `cards` in
      order; a later write to the same path replaces the earlier one. */
  function Written(files: map<string, string>, cards: seq<CardFile>): (after: map<string, string>)
    ensures files.Keys <= after.Keys
    decreases |cards|
  {
    if |cards| == 0 then files
    else Written(files[cards[0].path := cards[0].content], cards[1..])
  }

  /** The files after the writes are the old ones and the cards' paths. */
  lemma {:induction false} WrittenPaths(files: map<string, string>, cards: seq<CardFile>)
    ensures Written(files, cards).Keys == files.Keys + CardPaths(cards)
    decreases |cards|
  {
    if |cards| > 0 {
      CardPathsFirst(cards);
      WrittenPaths(files[cards[0].path := cards[0].content], cards[1..]);
    }
  }

  /** The paths the cards name. */
  function CardPaths(cards: seq<CardFile>): set<string>
  {
    set i | 0 <= i < |cards| :: cards[i].path
  }

  lemma CardPathsFirst(cards: seq<CardFile>)
    requires |cards| > 0
    ensures CardPaths(cards) == {cards[0].path} + CardPaths(cards[1..])
  {
    forall p | p in CardPaths(cards)
      ensures p in {cards[0].path} + CardPaths(cards[1..])
    {
      var i :| 0 <= i < |cards| && cards[i].path == p;
      if i > 0 {
        assert cards[1..][i - 1] == cards[i];
      }
    }
    forall p | p in CardPaths(cards[1..])
      ensures p in CardPaths(cards)
    {
      var i :| 0 <= i < |cards[1..]| && cards[1..][i].path == p;
      assert cards[i + 1] == cards[1..][i];
    }
  }

  lemma WrittenOne(files: map<string, string>, cards: seq<CardFile>)
    requires |cards| == 1
    ensures Written(files, cards) == files[cards[0].path := cards[0].content]
  {
  }

  lemma WrittenTwo(files: map<string, string>, cards: seq<CardFile>)
    requires |cards| == 2
    ensures Written(files, cards) == files[cards[0].path := cards[0].content][cards[1].path := cards[1].content]
  {
    WrittenOne(files[cards[0].path := cards[0].content], cards[1..]);
  }

  /** After the writes, the last card's path holds that card. */
  lemma {:induction false} WrittenLast(files: map<string, string>, cards: seq<CardFile>)
    requires |cards| > 0
    ensures cards[|cards| - 1].path in Written(files, cards)
    ensures Written(files, cards)[cards[|cards| - 1].path] == cards[|cards| - 1].content
    decreases |cards|
  {
    if |cards| > 1 {
      WrittenLast(files[cards[0].path := cards[0].content], cards[1..]);
    }
  }

  /** A path no later card names keeps what the card wrote there. */
  lemma {:induction false} WrittenSurvives(files: map<string, string>, cards: seq<CardFile>, k: nat)
    requires k < |cards|
    requires forall j :: k < j < |cards| ==> cards[j].path != cards[k].path
    ensures cards[k].path in Written(files, cards)
    ensures Written(files, cards)[cards[k].path] == cards[k].content
    decreases |cards|
  {
    if k == 0 {
      WrittenUntouched(files[cards[0].path := cards[0].content], cards[1..], cards[0].path);
    } else {
      WrittenSurvives(files[cards[0].path := cards[0].content], cards[1..], k - 1);
    }
  }

  /** A path no card names is left as it was. */
  lemma {:induction false} WrittenUntouched(files: map<string, string>, cards: seq<CardFile>, path: string)
    requires forall j :: 0 <= j < |cards| ==> cards[j].path != path
    ensures path in Written(files, cards) <==> path in files
    ensures path in files ==> Written(files, cards)[path] == files[path]
    decreases |cards|
  {
    if |cards| > 0 {
      WrittenUntouched(files[cards[0].path := cards[0].content], cards[1..], path);
    }
  }

  /** The directory the cards are written to, as a map from path to text;
      directories are implied by the paths. */
  class VcfStore {
    var files: map<string, string>

    constructor ()
      ensures files == map[]
    {
      files := map[];
    }

    /** `save_vcard`: writes (or overwrites) the file at the chosen path. */
    method SaveVcard(vcardContent: string, vcfDir: string, filename: Json, organisationId: Json)
      returns (r: Result<Option<string>, PyError>)
      modifies this
      ensures r == SavePath(vcfDir, filename, organisationId)
      ensures files == if r.Ok? && r.value.Some? then old(files)[r.value.value := vcardContent] else old(files)
    {
      r := SavePath(vcfDir, filename, organisationId);
      if r.Ok? && r.value.Some? {
        files := files[r.value.value := vcardContent];
      }
    }
  }

  /** The contact-card step of `json_to_csv`: with a contact name and a
      directory, the card goes where `save_vcard` puts it, and that path is
      the `vcard_path` cell. */
  method SaveContactCard(data: Json, vcfDir: string, store: VcfStore) returns (vcardPath: string)
    modifies store
    ensures vcardPath == VCardPathCell(data, vcfDir)
    ensures store.files ==
      if Truthy(ContactName(data)) && vcfDir != "" then old(store.files)[ContactCardPath(data, vcfDir) := ContactCard(data)]
      else old(store.files)
  {
    vcardPath := "";
    var contactName := ContactName(data);
    if Truthy(contactName) && vcfDir != "" {
      var saved := store.SaveVcard(ContactCard(data), vcfDir, contactName, Field(data, "eibNummer"));
      vcardPath := saved.value.value;
    }
  }

  /** The company-card step of `json_to_csv`: with a directory, the company
      card is saved under the company id. */
  method SaveCompanyCard(data: Json, vcfDir: string, store: VcfStore)
    modifies store
    ensures store.files ==
      if vcfDir != "" then old(store.files)[CompanyCardPath(data, vcfDir) := CompanyCard(data)]
      else old(store.files)
  {
    if vcfDir != "" {
      var ignored := store.SaveVcard(CompanyCard(data), vcfDir, Field(data, "eibNummer"), JNull);
    }
  }

  /** Writing the cards of a record, spelled out case by case. */
  lemma CardFilesWritten(files: map<string, string>, data: Json, vcfDir: string)
    ensures Written(files, CardFiles(data, vcfDir)) ==
      if vcfDir == "" then files
      else if Truthy(ContactName(data)) then
        files[ContactCardPath(data, vcfDir) := ContactCard(data)][CompanyCardPath(data, vcfDir) := CompanyCard(data)]
      else files[CompanyCardPath(data, vcfDir) := CompanyCard(data)]
  {
    if vcfDir != "" {
      var company := CompanyFile(data, vcfDir);
      if Truthy(ContactName(data)) {
        var contact := ContactFile(data, vcfDir);
        assert CardFiles(data, vcfDir) == [contact, company];
        WrittenTwo(files, [contact, company]);
      } else {
        assert CardFiles(data, vcfDir) == [company];
        WrittenOne(files, [company]);
      }
    }
  }

  /** The card-writing half of `json_to_csv`: the contact card when there is
      a contact name, then the company card, whenever a directory is given.
      Returns the `vcard_path` cell. */
  method SaveCards(data: Json, vcfDir: string, store: VcfStore) returns (vcardPath: string)
    modifies store
    ensures vcardPath == VCardPathCell(data, vcfDir)
    ensures store.files == Written(old(store.files), CardFiles(data, vcfDir))
  {
    ghost var before := store.files;
    vcardPath := SaveContactCard(data, vcfDir, store);
    SaveCompanyCard(data, vcfDir, store);
    CardFilesWritten(before, data, vcfDir);
  }

  /** After `json_to_csv` with a directory, the company card is on disk. */
  lemma CompanyCardOnDisk(files: map<string, string>, data: Json, vcfDir: string)
    requires vcfDir != ""
    ensures var after := Written(files, CardFiles(data, vcfDir));
      CompanyCardPath(data, vcfDir) in after && after[CompanyCardPath(data, vcfDir)] == CompanyCard(data)
  {
    WrittenLast(files, CardFiles(data, vcfDir));
  }

  /** With a contact name, the contact card is on disk too, unless the
      company card was written to the same path after it. */
  lemma ContactCardOnDisk(files: map<string, string>, data: Json, vcfDir: string)
    requires vcfDir != "" && Truthy(ContactName(data))
    requires ContactCardPath(data, vcfDir) != CompanyCardPath(data, vcfDir)
    ensures var after := Written(files, CardFiles(data, vcfDir));
      ContactCardPath(data, vcfDir) in after && after[ContactCardPath(data, vcfDir)] == ContactCard(data)
  {
    var contact := ContactFile(data, vcfDir);
    var company := CompanyFile(data, vcfDir);
    assert CardFiles(data, vcfDir) == [contact, company];
    FirstOfTwoSurvives(files, contact, company);
  }

  lemma FirstOfTwoSurvives(files: map<string, string>, first: CardFile, second: CardFile)
    requires first.path != second.path
    ensures first.path in Written(files, [first, second])
    ensures Written(files, [first, second])[first.path] == first.content
  {
    WrittenSurvives(files, [first, second], 0);
  }

  /** Every other file is left as it was. */
  lemma OtherFilesUntouched(files: map<string, string>, data: Json, vcfDir: string, other: string)
    requires vcfDir != "" && other != CompanyCardPath(data, vcfDir)
    requires Truthy(ContactName(data)) ==> other != ContactCardPath(data, vcfDir)
    ensures var after := Written(files, CardFiles(data, vcfDir));
      (other in after <==> other in files) && (other in files ==> after[other] == files[other])
  {
    var cards := CardFiles(data, vcfDir);
    var company := CompanyFile(data, vcfDir);
    assert company.path != other;
    if |cards| == 2 {
      var contact := ContactFile(data, vcfDir);
      assert contact.path != other;
      assert cards == [contact, company];
      UntouchedByTwo(files, contact, company, other);
    } else {
      assert cards == [company];
      UntouchedByTwo(files, company, company, other);
    }
  }

  lemma UntouchedByTwo(files: map<string, string>, first: CardFile, second: CardFile, other: string)
    requires first.path != other && second.path != other
    ensures var after := Written(files, [first, second]);
      (other in after <==> other in files) && (other in files ==> after[other] == files[other])
    ensures var after := Written(files, [second]);
      (other in after <==> other in files) && (other in files ==> after[other] == files[other])
  {
    WrittenUntouched(files, [first, second], other);
    WrittenUntouched(files, [second], other);
  }

  /** `json_to_csv`: saves the contact card and the company card, then
      returns the row, whose `vcard_path` cell is where the contact card
      went. */
  method JsonToCsv(data: Json, language: string, vcfDir: string, store: VcfStore)
    returns (row: Result<string, PyError>)
    modifies store
    ensures row == CsvRow(data, language, vcfDir)
    ensures store.files == Written(old(store.files), CardFiles(data, vcfDir))
  {
    var vcardPath := SaveCards(data, vcfDir, store);
    row := RenderTexts(RowTexts(data, language, vcardPath));
  }
}
