/** SQL LIKE with an escape character, and the escaping that makes a user's text literal in it. */
module Like {
  import opened Text

  /** `s like p escape '\'`. `%` matches any run, `_` one character, and the escape character makes
      the next one literal. A pattern that ends in a bare escape is an error in Postgres; it
      matches nothing here. */
  predicate Matches(p: string, s: string)
    decreases |p| + |s|
  {
    if p == "" then s == ""
    else if p[0] == '%' then Matches(p[1..], s) || (s != "" && Matches(p, s[1..]))
    else if p[0] == '_' then s != "" && Matches(p[1..], s[1..])
    else if p[0] == '\\' then |p| > 1 && s != "" && s[0] == p[1] && Matches(p[2..], s[1..])
    else s != "" && s[0] == p[0] && Matches(p[1..], s[1..])
  }

  /** The source's three passes: backslash first, so that the escapes added later stay single. */
  function EscapeLike(value: string): string {
    Replace(Replace(Replace(value, "\\", "\\\\"), "%", "\\%"), "_", "\\_")
  }

  predicate IsMeta(c: char) {
    c == '\\' || c == '%' || c == '_'
  }

  /** The meaning of EscapeLike: every metacharacter gets one escape in front of it. */
  function EscapeEach(value: string): string {
    if value == "" then ""
    else (if IsMeta(value[0]) then ['\\', value[0]] else [value[0]]) + EscapeEach(value[1..])
  }

  lemma JoinAfterFirst(a: string, b: string, c: char, rep: string)
    requires a != "" && Replace(a[1..] + b, [c], rep) == Replace(a[1..], [c], rep) + Replace(b, [c], rep)
    ensures Replace(a + b, [c], rep) == Replace(a, [c], rep) + Replace(b, [c], rep)
  {
    hide Replace;
    ReplaceStep(a, c, rep);
    ReplaceStep(a + b, c, rep);
    assert (a + b)[1..] == a[1..] + b && (a + b)[0] == a[0];
    var x, y, z := if a[0] == c then rep else [a[0]], Replace(a[1..], [c], rep), Replace(b, [c], rep);
    assert x + (y + z) == x + y + z;
  }

  lemma {:induction false} ReplaceConcat(a: string, b: string, c: char, rep: string)
    ensures Replace(a + b, [c], rep) == Replace(a, [c], rep) + Replace(b, [c], rep)
  {
    if a == "" {
      assert a + b == b;
    } else {
      ReplaceConcat(a[1..], b, c, rep);
      JoinAfterFirst(a, b, c, rep);
    }
  }

  lemma {:induction false} EscapeLikeIsPerCharacter(value: string)
    ensures EscapeLike(value) == EscapeEach(value)
  {
    if value != "" {
      var head, tail := [value[0]], value[1..];
      assert value == head + tail;
      ReplaceConcat(head, tail, '\\', "\\\\");
      var h1, t1 := Replace(head, "\\", "\\\\"), Replace(tail, "\\", "\\\\");
      ReplaceConcat(h1, t1, '%', "\\%");
      var h2, t2 := Replace(h1, "%", "\\%"), Replace(t1, "%", "\\%");
      ReplaceConcat(h2, t2, '_', "\\_");
      EscapeOneCharacter(value[0]);
      EscapeLikeIsPerCharacter(tail);
    }
  }

  lemma EscapeOneCharacter(c: char)
    ensures EscapeLike([c]) == EscapeEach([c])
  {
    var one := [c];
    assert Replace("", "\\", "\\\\") == "";
    assert one[1..] == "";
    assert Replace(one, "\\", "\\\\") == if c == '\\' then "\\\\" else one;
    if c == '\\' {
      NoOccurrence("\\\\", '%', "\\%");
      NoOccurrence("\\\\", '_', "\\_");
    } else if c == '%' {
      assert Replace("%", "%", "\\%") == "\\%" + Replace("%"[1..], "%", "\\%");
      NoOccurrence("\\%", '_', "\\_");
    } else {
      NoOccurrence(one, '%', "\\%");
      assert Replace(one, "_", "\\_") == if c == '_' then "\\_" + Replace(one[1..], "_", "\\_") else one;
    }
  }

  lemma {:induction false} NoOccurrence(s: string, c: char, rep: string)
    requires c !in s
    ensures Replace(s, [c], rep) == s
  {
    if s != "" {
      assert s[0] in s;
      NoOccurrence(s[1..], c, rep);
    }
  }

  /** An escaped text followed by `%` matches exactly the strings that start with the text. */
  lemma {:induction false} EscapedPrefix(q: string, s: string)
    ensures Matches(EscapeEach(q) + "%", s) <==> q <= s
  {
    if q == "" {
      assert EscapeEach(q) + "%" == "%";
      PercentMatchesAll(s);
    } else {
      var p := EscapeEach(q) + "%";
      assert p[if IsMeta(q[0]) then 2 else 1..] == EscapeEach(q[1..]) + "%";
      if s != "" {
        EscapedPrefix(q[1..], s[1..]);
        assert s == [s[0]] + s[1..] && q == [q[0]] + q[1..];
      }
    }
  }

  lemma {:induction false} PercentMatchesAll(s: string)
    ensures Matches("%", s)
  {
    if s != "" {
      PercentMatchesAll(s[1..]);
    } else {
      assert Matches("%"[1..], s);
    }
  }

  /** `%` in front turns a prefix search into a search at every offset. */
  lemma {:induction false} LeadingPercent(p: string, s: string)
    requires |p| > 0 && p[0] == '%'
    ensures Matches(p, s) <==> exists k {:trigger s[k..]} :: 0 <= k <= |s| && Matches(p[1..], s[k..])
  {
    if s == "" {
      assert s[0..] == s;
    } else {
      var t := s[1..];
      LeadingPercent(p, t);
      assert s[0..] == s;
      assert forall k :: 0 <= k <= |t| ==> t[k..] == s[k + 1..];
      if k :| 0 <= k <= |s| && Matches(p[1..], s[k..]) {
        if k > 0 {
          assert t[k - 1..] == s[k..];
        }
      }
    }
  }

  /** The guarantee of escape_like: the substring pattern built from any user text accepts exactly
      the strings that contain that text literally, whatever wildcards it holds. */
  lemma EscapedPatternIsSubstring(q: string, s: string)
    ensures Matches("%" + EscapeLike(q) + "%", s) <==> Contains(s, q)
  {
    EscapeLikeIsPerCharacter(q);
    var p := "%" + EscapeEach(q) + "%";
    assert p[1..] == EscapeEach(q) + "%";
    LeadingPercent(p, s);
    forall k | 0 <= k <= |s|
      ensures Matches(p[1..], s[k..]) <==> q <= s[k..]
    {
      EscapedPrefix(q, s[k..]);
    }
    assert "%" + EscapeLike(q) + "%" == p;
  }

  /** Without the escaping the same pattern is not a substring test: `_` finds any character. */
  lemma UnescapedPatternIsNotSubstring()
    ensures Matches("%" + "_" + "%", "a") && !Contains("a", "_")
  {
    var p := "%_%";
    assert p[1..] == "_%" && "_%"[1..] == "%";
    PercentMatchesAll("");
    assert Matches("_%", "a") by {
      assert "a"[1..] == "";
    }
    assert "%" + "_" + "%" == p;
    forall k | 0 <= k <= |"a"|
      ensures !("_" <= "a"[k..])
    {
    }
  }

  lemma LowerConcat(a: string, b: string)
    ensures Lower(a + b) == Lower(a) + Lower(b)
  {
  }

  /** Lower-casing the escaped pattern, as the recurring lookup does, is escaping the lower case. */
  lemma {:induction false} LowerCommutesWithEscape(q: string)
    ensures Lower(EscapeLike(q)) == EscapeLike(Lower(q))
  {
    EscapeLikeIsPerCharacter(q);
    EscapeLikeIsPerCharacter(Lower(q));
    if q != "" {
      LowerCommutesWithEscape(q[1..]);
      EscapeLikeIsPerCharacter(q[1..]);
      EscapeLikeIsPerCharacter(Lower(q)[1..]);
      assert Lower(q)[1..] == Lower(q[1..]);
      var head := if IsMeta(q[0]) then ['\\', q[0]] else [q[0]];
      LowerConcat(head, EscapeEach(q[1..]));
    }
  }
}
