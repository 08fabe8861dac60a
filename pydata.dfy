/** Python values as they come out of `json.load`, with the three pieces of
    Python semantics the core relies on: truthiness (`if value`), `str(value)`
    and `dict.get`. Python's `None` is `JNull`. */
module PyData {

  datatype Json =
    | JNull
    | JBool(b: bool)
    | JInt(i: int)
    | JStr(s: string)
    | JList(items: seq<Json>)
    | JObject(fields: map<string, Json>)

  /** Python truthiness: `None`, `False`, `0`, `""`, `[]` and `{}` are falsy. */
  predicate Truthy(v: Json)
  {
    match v
    case JNull => false
    case JBool(b) => b
    case JInt(i) => i != 0
    case JStr(s) => s != ""
    case JList(items) => items != []
    case JObject(fields) => fields != map[]
  }

  /** The falsy values are exactly `None`, `False`, `0`, `""`, `[]` and
      `{}`. */
  lemma FalsyValues(v: Json)
    ensures !Truthy(v) <==>
      v == JNull || v == JBool(false) || v == JInt(0) || v == JStr("") || v == JList([]) || v == JObject(map[])
  {
  }

  /** `d.get(key)` on a mapping: the value, or `None` when the key is absent. */
  function Member(d: Json, key: string): (v: Json)
    requires d.JObject?
    ensures key !in d.fields ==> v == JNull
    ensures key in d.fields ==> v == d.fields[key]
  {
    if key in d.fields then d.fields[key] else JNull
  }

  function DigitChar(d: nat): char
    requires d < 10
  {
    "0123456789"[d]
  }

  function NaturalDigits(n: nat): (s: string)
    ensures |s| >= 1
    ensures forall k :: 0 <= k < |s| ==> '0' <= s[k] <= '9'
  {
    if n < 10 then [DigitChar(n)] else NaturalDigits(n / 10) + [DigitChar(n % 10)]
  }

  /** `str(i)` for a Python int: decimal digits, a leading `-` when negative. */
  function DecimalString(i: int): (s: string)
    ensures |s| >= 1
  {
    if i < 0 then "-" + NaturalDigits(-i) else NaturalDigits(i)
  }

  /** Python's `str(value)`, as used by the f-strings of the core. Exact for
      `None`, booleans, ints and strings; a list or a dict becomes a fixed
      stand-in for its `repr`, which the model does not reproduce. */
  function Str(v: Json): (s: string)
    ensures s == "" <==> v == JStr("")
    ensures v.JStr? ==> s == v.s
  {
    match v
    case JNull => "None"
    case JBool(b) => if b then "True" else "False"
    case JInt(i) => DecimalString(i)
    case JStr(s) => s
    case JList(_) => "[...]"
    case JObject(_) => "{...}"
  }

  // ---------------------------------------------------------------------
  // {k: v for k, v in d.items() if keep(v)}
  // ---------------------------------------------------------------------

  /** `r` is `s` with some elements removed, the rest in their order. */
  ghost predicate Subsequence<T>(r: seq<T>, s: seq<T>)
    decreases |s|
  {
    if |r| == 0 then true
    else if |s| == 0 then false
    else (r[0] == s[0] && Subsequence(r[1..], s[1..])) || Subsequence(r, s[1..])
  }

  function Keys(entries: seq<(string, Json)>): (ks: seq<string>)
    ensures |ks| == |entries|
    ensures forall i :: 0 <= i < |entries| ==> ks[i] == entries[i].0
  {
    seq(|entries|, i requires 0 <= i < |entries| => entries[i].0)
  }

  /** A dict comprehension that keeps the entries whose value passes `keep`,
      over a dict given as its entries in insertion order. The result holds
      exactly the entries that pass, in their original order. */
  function FilterEntries(entries: seq<(string, Json)>, keep: Json -> bool): (r: seq<(string, Json)>)
    ensures forall i :: 0 <= i < |r| ==> keep(r[i].1)
    ensures forall i :: 0 <= i < |entries| && keep(entries[i].1) ==> entries[i] in r
  {
    if |entries| == 0 then []
    else
      var rest := FilterEntries(entries[1..], keep);
      if keep(entries[0].1) then [entries[0]] + rest else rest
  }

  /** The filtered dict keeps its entries, and so its keys, in their
      original order. */
  lemma {:induction false} FilterKeepsOrder(entries: seq<(string, Json)>, keep: Json -> bool)
    ensures Subsequence(FilterEntries(entries, keep), entries)
    ensures Subsequence(Keys(FilterEntries(entries, keep)), Keys(entries))
  {
    if |entries| > 0 {
      var rest := FilterEntries(entries[1..], keep);
      FilterKeepsOrder(entries[1..], keep);
      assert Keys(entries)[1..] == Keys(entries[1..]);
      if keep(entries[0].1) {
        assert ([entries[0]] + rest)[1..] == rest;
        assert Keys([entries[0]] + rest)[1..] == Keys(rest);
      }
    }
  }

  /** Every entry of the result comes from the dict. */
  lemma {:induction false} FilterFromEntries(entries: seq<(string, Json)>, keep: Json -> bool)
    ensures forall i :: 0 <= i < |FilterEntries(entries, keep)| ==> FilterEntries(entries, keep)[i] in entries
  {
    if |entries| > 0 {
      FilterFromEntries(entries[1..], keep);
    }
  }

  /** An entry of the dict is in the filtered dict exactly when its value
      passes. */
  lemma FilterMembership(entries: seq<(string, Json)>, keep: Json -> bool, i: nat)
    requires i < |entries|
    ensures entries[i] in FilterEntries(entries, keep) <==> keep(entries[i].1)
  {
    var r := FilterEntries(entries, keep);
    if entries[i] in r {
      var j :| 0 <= j < |r| && r[j] == entries[i];
      assert keep(r[j].1);
    }
  }

  /** When no other entry shares its key, a dropped entry's key is not in
      the filtered dict. */
  lemma FilterDropsKey(entries: seq<(string, Json)>, keep: Json -> bool, i: nat)
    requires i < |entries| && !keep(entries[i].1)
    requires forall k :: 0 <= k < |entries| && entries[k].0 == entries[i].0 ==> k == i
    ensures entries[i].0 !in Keys(FilterEntries(entries, keep))
  {
    var r := FilterEntries(entries, keep);
    FilterFromEntries(entries, keep);
    forall j | 0 <= j < |r|
      ensures Keys(r)[j] != entries[i].0
    {
      var k :| 0 <= k < |entries| && entries[k] == r[j];
      assert keep(entries[k].1);
      assert k != i;
    }
  }

  /** A kept entry at the end of the dict stays at the end. */
  lemma {:induction false} FilterKeepsLast(entries: seq<(string, Json)>, keep: Json -> bool)
    requires |entries| > 0 && keep(entries[|entries| - 1].1)
    ensures var r := FilterEntries(entries, keep); |r| > 0 && r[|r| - 1] == entries[|entries| - 1]
  {
    if |entries| > 1 {
      FilterKeepsLast(entries[1..], keep);
    }
  }

  /** When the first two and the last entries are kept, the filtered dict
      starts with the same two entries and ends with the same last one. */
  lemma FilterKeepsFrame(entries: seq<(string, Json)>, keep: Json -> bool)
    requires |entries| >= 3
    requires keep(entries[0].1) && keep(entries[1].1) && keep(entries[|entries| - 1].1)
    requires entries[1] != entries[|entries| - 1]
    ensures var r := FilterEntries(entries, keep);
      |r| >= 3 && r[0] == entries[0] && r[1] == entries[1] && r[|r| - 1] == entries[|entries| - 1]
  {
    var r := FilterEntries(entries, keep);
    assert r == [entries[0]] + FilterEntries(entries[1..], keep);
    assert FilterEntries(entries[1..], keep) == [entries[1]] + FilterEntries(entries[2..], keep);
    FilterKeepsLast(entries, keep);
  }
}
