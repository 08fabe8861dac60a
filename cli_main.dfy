/** Reading a browser cookie export (the Netscape `cookies.txt` layout) into
    the name-to-value map the command line hands to the API client. */
module CliMain {
  import opened Wrappers
  import opened PyText

  /** The tab-separated fields of a line once surrounding whitespace
      (including its line break) is stripped: no field holds a tab, and the
      fields joined by tabs give back the stripped line. */
  function CookieFields(line: string): (fields: seq<string>)
    ensures |fields| >= 1
    ensures forall i :: 0 <= i < |fields| ==> '\t' !in fields[i]
    ensures Join(fields, "\t") == Strip(line)
  {
    var fields := Split(Strip(line), '\t');
    SplitJoin(Strip(line), '\t');
    fields
  }

  /** One cookie as the file states it. */
  datatype Cookie = Cookie(name: string, value: string)

  /** The cookie a line yields: none for a comment (recognised on the raw line)
      or a line with fewer than seven fields; otherwise the sixth field is
      the name and the seventh the value, neither holding a tab. */
  function LineCookie(line: string): (c: Option<Cookie>)
    ensures c.Some? <==> !StartsWith(line, "#") && |CookieFields(line)| >= 7
    ensures c.Some? ==> c.value == Cookie(CookieFields(line)[5], CookieFields(line)[6])
    ensures c.Some? ==> '\t' !in c.value.name && '\t' !in c.value.value
  {
    if StartsWith(line, "#") then None
    else
      var fields := CookieFields(line);
      if |fields| >= 7 then Some(Cookie(fields[5], fields[6])) else None
  }

  /** `[f(x) for x in xs]`. */
  function MapSeq<A, B>(f: A -> B, xs: seq<A>): (ys: seq<B>)
    ensures |ys| == |xs|
    ensures forall i :: 0 <= i < |xs| ==> ys[i] == f(xs[i])
  {
    if |xs| == 0 then [] else MapSeq(f, xs[..|xs| - 1]) + [f(xs[|xs| - 1])]
  }

  /** Mapping commutes with deleting one element. */
  lemma MapSeqWithout<A, B>(f: A -> B, xs: seq<A>, i: nat)
    requires i < |xs|
    ensures MapSeq(f, xs[..i] + xs[i + 1..]) == MapSeq(f, xs)[..i] + MapSeq(f, xs)[i + 1..]
  {
    var ys := MapSeq(f, xs);
    var rest := xs[..i] + xs[i + 1..];
    var kept := ys[..i] + ys[i + 1..];
    forall k | 0 <= k < |rest|
      ensures MapSeq(f, rest)[k] == kept[k]
    {
      if k < i {
        assert rest[k] == xs[k] && kept[k] == ys[k];
      } else {
        assert rest[k] == xs[k + 1] && kept[k] == ys[k + 1];
      }
    }
  }

  /** The cookie each line yields, in file order. */
  function LineCookies(lines: seq<string>): seq<Option<Cookie>>
  {
    MapSeq(LineCookie, lines)
  }

  /** Storing the cookies in order into a map, each overwriting any earlier
      cookie of the same name. Every stored pair is one of the cookies. */
  function Store(found: seq<Option<Cookie>>): (jar: map<string, string>)
    ensures forall name :: name in jar ==> exists i :: 0 <= i < |found| && found[i] == Some(Cookie(name, jar[name]))
  {
    if |found| == 0 then map[]
    else
      var init := found[..|found| - 1];
      var jar := Store(init);
      assert forall i :: 0 <= i < |init| ==> found[i] == init[i];
      match found[|found| - 1]
      case None => jar
      case Some(c) => jar[c.name := c.value]
  }

  /** The map a cookie file's lines produce: every stored pair is the cookie
      of one of the lines. */
  function ParseCookies(lines: seq<string>): (jar: map<string, string>)
    ensures forall name :: name in jar ==>
      exists i :: 0 <= i < |lines| && LineCookie(lines[i]) == Some(Cookie(name, jar[name]))
  {
    Store(LineCookies(lines))
  }

  /** The file reader: one pass over the lines, storing each accepted line's
      cookie in the map. */
  method ParseCookiesFile(lines: seq<string>) returns (cookies: map<string, string>)
    ensures cookies == ParseCookies(lines)
  {
    cookies := map[];
    for i := 0 to |lines|
      invariant cookies == ParseCookies(lines[..i])
    {
      var line := lines[i];
      if !StartsWith(line, "#") {
        var fields := Split(Strip(line), '\t');
        if |fields| >= 7 {
          cookies := cookies[fields[5] := fields[6]];
        }
      }
      ParseCookiesStep(lines, i);
    }
    assert lines[..|lines|] == lines;
  }

  /** Reading one more line stores its cookie, if it yields one. */
  lemma ParseCookiesStep(lines: seq<string>, i: nat)
    requires i < |lines|
    ensures ParseCookies(lines[..i + 1]) ==
      match LineCookie(lines[i])
      case None => ParseCookies(lines[..i])
      case Some(c) => ParseCookies(lines[..i])[c.name := c.value]
  {
    var found := LineCookies(lines[..i + 1]);
    assert found[..i] == LineCookies(lines[..i]);
    assert found[i] == LineCookie(lines[i]);
  }

  /** Some cookie in `found` has the name `name`. */
  ghost predicate Named(found: seq<Option<Cookie>>, name: string)
  {
    exists i :: 0 <= i < |found| && found[i].Some? && found[i].value.name == name
  }

  /** Entry `j` is the last cookie in `found` with the name `name`. */
  ghost predicate LastNamed(found: seq<Option<Cookie>>, j: int, name: string)
  {
    0 <= j < |found| && found[j].Some? && found[j].value.name == name &&
    forall k :: j < k < |found| && found[k].Some? ==> found[k].value.name != name
  }

  /** A name is in the map exactly when some cookie has it. */
  lemma {:induction false} StorePresent(found: seq<Option<Cookie>>, name: string)
    ensures name in Store(found) <==> Named(found, name)
  {
    if |found| > 0 {
      var init := found[..|found| - 1];
      StorePresent(init, name);
      if Named(init, name) {
        var i :| 0 <= i < |init| && init[i].Some? && init[i].value.name == name;
        assert found[i] == init[i];
      }
      if Named(found, name) {
        var i :| 0 <= i < |found| && found[i].Some? && found[i].value.name == name;
        if i < |init| {
          assert init[i] == found[i];
        }
      }
    }
  }

  /** The value under a name is that of the last cookie with the name. */
  lemma {:induction false} StoreLastWins(found: seq<Option<Cookie>>, name: string, j: int)
    requires LastNamed(found, j, name)
    ensures name in Store(found) && Store(found)[name] == found[j].value.value
  {
    var init := found[..|found| - 1];
    if j < |found| - 1 {
      assert init[j] == found[j];
      assert LastNamed(init, j, name) by {
        forall k | j < k < |init| && init[k].Some?
          ensures init[k].value.name != name
        {
          assert init[k] == found[k];
        }
      }
      StoreLastWins(init, name, j);
    }
  }

  /** A line that yields no cookie, wherever it stands, changes nothing. */
  lemma {:induction false} StoreSkipsNone(found: seq<Option<Cookie>>, i: nat)
    requires i < |found| && found[i].None?
    ensures Store(found) == Store(found[..i] + found[i + 1..])
  {
    var init := found[..|found| - 1];
    if i == |found| - 1 {
      assert found[..i] + found[i + 1..] == init;
    } else {
      StoreSkipsNone(init, i);
      var shorter := found[..i] + found[i + 1..];
      var last := found[|found| - 1];
      assert init[..i] + init[i + 1..] == shorter[..|shorter| - 1];
      assert shorter[|shorter| - 1] == last;
      var jar := Store(init);
      assert Store(shorter[..|shorter| - 1]) == jar;
      assert Store(found) == if last.None? then jar else jar[last.value.name := last.value.value];
    }
  }

  /** A name is in the parsed map exactly when some line yields a cookie of
      that name. */
  lemma CookiePresent(lines: seq<string>, name: string)
    ensures name in ParseCookies(lines) <==>
      exists i :: 0 <= i < |lines| && LineCookie(lines[i]).Some? && LineCookie(lines[i]).value.name == name
  {
    var found := LineCookies(lines);
    StorePresent(found, name);
  }

  /** A later line overrides an earlier one: the value stored under a name
      is the one on the last line that yields a cookie of that name. */
  lemma CookieFromLastLine(lines: seq<string>, name: string, j: int)
    requires 0 <= j < |lines| && LineCookie(lines[j]).Some? && LineCookie(lines[j]).value.name == name
    requires forall k :: j < k < |lines| && LineCookie(lines[k]).Some? ==> LineCookie(lines[k]).value.name != name
    ensures name in ParseCookies(lines)
    ensures ParseCookies(lines)[name] == LineCookie(lines[j]).value.value
  {
    StoreLastWins(LineCookies(lines), name, j);
  }

  /** The map is empty exactly when no line yields a cookie: comments, short
      lines and blank lines alone give no cookies. */
  lemma NothingAcceptedIsEmpty(lines: seq<string>)
    ensures ParseCookies(lines) == map[] <==>
      forall i :: 0 <= i < |lines| ==> LineCookie(lines[i]).None?
  {
    var found := LineCookies(lines);
    var jar := Store(found);
    if forall i :: 0 <= i < |lines| ==> LineCookie(lines[i]).None? {
      forall name | name in jar
        ensures false
      {
        StorePresent(found, name);
      }
      assert jar.Keys == {};
    } else {
      var i :| 0 <= i < |lines| && LineCookie(lines[i]).Some?;
      StorePresent(found, found[i].value.name);
      assert found[i].value.name in jar;
    }
  }

  /** Deleting a line that yields no cookie leaves the parsed map as it was. */
  lemma RejectedLineIgnored(lines: seq<string>, i: nat)
    requires i < |lines| && LineCookie(lines[i]).None?
    ensures ParseCookies(lines) == ParseCookies(lines[..i] + lines[i + 1..])
  {
    MapSeqWithout(LineCookie, lines, i);
    StoreSkipsNone(LineCookies(lines), i);
  }

  /** Stripping happens before splitting, so the last field of a line that
      yields a cookie is never empty: a line whose value column is empty and
      last loses its trailing tab and, with six fields left, yields nothing. */
  lemma LastFieldNonEmpty(line: string)
    requires LineCookie(line).Some?
    ensures CookieFields(line)[|CookieFields(line)| - 1] != ""
    ensures |CookieFields(line)| == 7 ==> LineCookie(line).value.value != ""
  {
    var s := Strip(line);
    SplitLastEmpty(s, '\t');
    if |s| > 0 {
      assert !IsSpace(s[|s| - 1]);
    }
  }

  /** A line whose value column is empty and last is dropped: stripping
      removes its trailing tab with the line break, which leaves six fields.
      `p` is the line up to that tab, `w` the whitespace after it. */
  lemma EmptyValueLineDropped(p: string, w: string)
    requires |p| > 0 && !IsSpace(p[0]) && !IsSpace(p[|p| - 1]) && AllSpace(w)
    requires |Split(p, '\t')| == 6
    ensures LineCookie(p + "\t" + w).None?
  {
    assert p + "\t" + w == p + ("\t" + w);
    StripTrailing(p, "\t" + w);
  }
}
