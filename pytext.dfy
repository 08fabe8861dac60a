/** The Python string operations the core relies on: `str.join`,
    `str.split` with an explicit separator, `str.strip`, `str.startswith`,
    `str.capitalize` (ASCII only) and POSIX `os.path.join` for two parts. */
module PyText {

  predicate StartsWith(s: string, prefix: string)
  {
    |prefix| <= |s| && s[..|prefix|] == prefix
  }

  predicate EndsWith(s: string, suffix: string)
  {
    |suffix| <= |s| && s[|s| - |suffix|..] == suffix
  }

  /** A text ending in `a + b` ends in `b`. */
  lemma EndsWithSuffix(s: string, a: string, b: string)
    requires EndsWith(s, a + b)
    ensures EndsWith(s, b)
  {
    assert s[|s| - |b|..] == (a + b)[|a|..];
  }

  // ---------------------------------------------------------------------
  // sep.join(parts)
  // ---------------------------------------------------------------------

  /** `sep.join(parts)`: empty for no parts; otherwise it starts with the
      first part. */
  function Join(parts: seq<string>, sep: string): (s: string)
    ensures |parts| == 0 ==> s == ""
    ensures |parts| > 0 ==> StartsWith(s, parts[0])
  {
    if |parts| == 0 then ""
    else if |parts| == 1 then parts[0]
    else parts[0] + sep + Join(parts[1..], sep)
  }

  /** Joining a non-empty list with one more part appends the separator and
      that part. */
  lemma {:induction false} JoinSnoc(parts: seq<string>, sep: string, last: string)
    requires |parts| >= 1
    ensures Join(parts + [last], sep) == Join(parts, sep) + sep + last
  {
    if |parts| == 1 {
      assert parts + [last] == [parts[0], last];
    } else {
      assert (parts + [last])[1..] == parts[1..] + [last];
      JoinSnoc(parts[1..], sep, last);
    }
  }

  /** The first two parts, each followed by the separator, open the joined
      text of three or more parts. */
  lemma JoinOpening(parts: seq<string>, sep: string)
    requires |parts| >= 3
    ensures StartsWith(Join(parts, sep), parts[0] + sep + parts[1] + sep)
  {
    var tail := Join(parts[2..], sep);
    assert parts[1..][0] == parts[1] && parts[1..][1..] == parts[2..];
    assert Join(parts[1..], sep) == parts[1] + sep + tail;
    assert Join(parts, sep) == (parts[0] + sep + parts[1] + sep) + tail;
  }

  /** The separator and the last part close the joined text of two or more
      parts. */
  lemma JoinClosing(parts: seq<string>, sep: string)
    requires |parts| >= 2
    ensures EndsWith(Join(parts, sep), sep + parts[|parts| - 1])
  {
    var last := parts[|parts| - 1];
    JoinSnoc(parts[..|parts| - 1], sep, last);
    assert parts[..|parts| - 1] + [last] == parts;
    assert Join(parts, sep) == Join(parts[..|parts| - 1], sep) + (sep + last);
  }

  // ---------------------------------------------------------------------
  // s.split(d) for a one-character separator d
  // ---------------------------------------------------------------------

  /** Python's `s.split(d)` with an explicit separator: empty fields are kept,
      and the empty string splits into one empty field. */
  function Split(s: string, d: char): (fields: seq<string>)
    ensures |fields| >= 1
    ensures forall i :: 0 <= i < |fields| ==> d !in fields[i]
  {
    if |s| == 0 then [""]
    else if s[0] == d then [""] + Split(s[1..], d)
    else
      var rest := Split(s[1..], d);
      [[s[0]] + rest[0]] + rest[1..]
  }

  /** Splitting and re-joining with the same separator gives back the input. */
  lemma {:induction false} SplitJoin(s: string, d: char)
    ensures Join(Split(s, d), [d]) == s
  {
    if |s| == 0 {
    } else if s[0] == d {
      SplitJoin(s[1..], d);
      var rest := Split(s[1..], d);
      assert Split(s, d) == [""] + rest;
      assert ([""] + rest)[1..] == rest;
      assert s == [d] + s[1..];
    } else {
      SplitJoin(s[1..], d);
      var rest := Split(s[1..], d);
      var fields := [[s[0]] + rest[0]] + rest[1..];
      assert Split(s, d) == fields;
      if |rest| == 1 {
        assert s == [s[0]] + s[1..];
      } else {
        assert fields[1..] == rest[1..];
        assert Join(rest, [d]) == rest[0] + [d] + Join(rest[1..], [d]);
        assert s == [s[0]] + s[1..];
      }
    }
  }

  /** Text without the separator splits into itself alone. */
  lemma {:induction false} SplitNoSeparator(s: string, d: char)
    requires d !in s
    ensures Split(s, d) == [s]
  {
    if |s| > 0 {
      SplitNoSeparator(s[1..], d);
      assert [s[0]] + s[1..] == s;
    }
  }

  /** A field followed by the separator splits off as the first field. */
  lemma {:induction false} SplitAfterField(p: string, t: string, d: char)
    requires d !in p
    ensures Split(p + [d] + t, d) == [p] + Split(t, d)
  {
    var s := p + [d] + t;
    if |p| == 0 {
      assert s == [d] + t;
      assert s[1..] == t;
    } else {
      SplitAfterField(p[1..], t, d);
      assert s[0] == p[0];
      assert s[1..] == p[1..] + [d] + t;
      assert [p[0]] + p[1..] == p;
    }
  }

  /** Joining fields that do not contain the separator and splitting the
      result gives the fields back. */
  lemma {:induction false} JoinSplit(parts: seq<string>, d: char)
    requires |parts| >= 1
    requires forall i :: 0 <= i < |parts| ==> d !in parts[i]
    ensures Split(Join(parts, [d]), d) == parts
  {
    if |parts| == 1 {
      SplitNoSeparator(parts[0], d);
    } else {
      var tail := Join(parts[1..], [d]);
      assert Join(parts, [d]) == parts[0] + [d] + tail;
      assert forall i :: 0 <= i < |parts[1..]| ==> parts[1..][i] == parts[i + 1];
      JoinSplit(parts[1..], d);
      SplitAfterField(parts[0], tail, d);
      assert [parts[0]] + parts[1..] == parts;
    }
  }

  /** The last field is empty exactly when the text is empty or ends with the
      separator. */
  lemma {:induction false} SplitLastEmpty(s: string, d: char)
    ensures var fields := Split(s, d);
      fields[|fields| - 1] == "" <==> |s| == 0 || s[|s| - 1] == d
  {
    if |s| > 0 {
      SplitLastEmpty(s[1..], d);
      if |s| > 1 {
        assert s[1..][|s[1..]| - 1] == s[|s| - 1];
      }
    }
  }

  // ---------------------------------------------------------------------
  // s.strip()
  // ---------------------------------------------------------------------

  /** The characters for which Python's `str.isspace` holds. */
  predicate IsSpace(c: char)
  {
    c == ' ' || '\t' <= c <= '\r' || '\U{1c}' <= c <= '\U{1f}' ||
    c == '\U{85}' || c == '\U{a0}' || c == '\U{1680}' ||
    '\U{2000}' <= c <= '\U{200a}' || c == '\U{2028}' || c == '\U{2029}' ||
    c == '\U{202f}' || c == '\U{205f}' || c == '\U{3000}'
  }

  predicate AllSpace(s: string)
  {
    forall k :: 0 <= k < |s| ==> IsSpace(s[k])
  }

  /** `s.lstrip()`: drops the leading whitespace. */
  function StripStart(s: string): (r: string)
    ensures |r| <= |s| && r == s[|s| - |r|..]
    ensures AllSpace(s[..|s| - |r|])
    ensures r == "" || !IsSpace(r[0])
  {
    if |s| > 0 && IsSpace(s[0]) then
      var r := StripStart(s[1..]);
      assert s[..|s| - |r|] == [s[0]] + s[1..][..|s| - 1 - |r|];
      r
    else s
  }

  /** `s.rstrip()`: drops the trailing whitespace. */
  function StripEnd(s: string): (r: string)
    ensures |r| <= |s| && r == s[..|r|]
    ensures AllSpace(s[|r|..])
    ensures r == "" || !IsSpace(r[|r| - 1])
  {
    if |s| > 0 && IsSpace(s[|s| - 1]) then
      var r := StripEnd(s[..|s| - 1]);
      assert s[|r|..] == s[..|s| - 1][|r|..] + [s[|s| - 1]];
      r
    else s
  }

  /** Python's `s.strip()`: the text between the leading and the trailing
      whitespace, which neither starts nor ends with whitespace itself. */
  function Strip(s: string): (r: string)
    ensures r == "" || (!IsSpace(r[0]) && !IsSpace(r[|r| - 1]))
  {
    var t := StripStart(s);
    var r := StripEnd(t);
    assert |r| > 0 ==> r[0] == t[0];
    r
  }

  /** Trailing whitespace after text that ends in a visible character is
      all that `rstrip` removes. */
  lemma {:induction false} StripEndTrailing(p: string, w: string)
    requires |p| > 0 && !IsSpace(p[|p| - 1]) && AllSpace(w)
    ensures StripEnd(p + w) == p
  {
    if |w| > 0 {
      assert (p + w)[..|p + w| - 1] == p + w[..|w| - 1];
      StripEndTrailing(p, w[..|w| - 1]);
    } else {
      assert p + w == p;
    }
  }

  /** Text with no whitespace at either end, followed only by whitespace,
      strips back to itself. */
  lemma StripTrailing(p: string, w: string)
    requires |p| > 0 && !IsSpace(p[0]) && !IsSpace(p[|p| - 1]) && AllSpace(w)
    ensures Strip(p + w) == p
  {
    assert StripStart(p + w) == p + w by {
      assert (p + w)[0] == p[0];
    }
    StripEndTrailing(p, w);
  }

  // ---------------------------------------------------------------------
  // s.capitalize() and os.path.join(a, b)
  // ---------------------------------------------------------------------

  function AsciiUpper(c: char): char
  {
    if 'a' <= c <= 'z' then (c as int - 32) as char else c
  }

  function AsciiLower(c: char): char
  {
    if 'A' <= c <= 'Z' then (c as int + 32) as char else c
  }

  /** `s.capitalize()` on ASCII text: first character upper case, the rest
      lower case. */
  function Capitalize(s: string): (r: string)
    ensures |r| == |s|
    ensures |s| > 0 ==> r[0] == AsciiUpper(s[0])
    ensures forall k :: 0 < k < |s| ==> r[k] == AsciiLower(s[k])
  {
    if |s| == 0 then "" else [AsciiUpper(s[0])] + seq(|s| - 1, k requires 0 <= k < |s| - 1 => AsciiLower(s[k + 1]))
  }

  /** POSIX `os.path.join(a, b)`: an absolute `b` replaces `a`; otherwise a
      slash is put between them unless `a` is empty or already ends in one. */
  function PathJoin(a: string, b: string): (p: string)
    ensures EndsWith(p, b)
    ensures !StartsWith(b, "/") ==> StartsWith(p, a)
  {
    if StartsWith(b, "/") then b
    else if a == "" || a[|a| - 1] == '/' then a + b
    else a + "/" + b
  }
}
