/** The search pattern of listJobs (storage/sql.go:611-616) under the LIKE predicate of
    section 8.5 of ISO/IEC 9075-2, with the escape character '\'. */
module Like {

  predicate Special(c: char) {
    c == '\\' || c == '%' || c == '_'
  }

  function EscapeChar(c: char): string {
    if Special(c) then ['\\', c] else [c]
  }

  /** strings.NewReplacer with the three escapes, in one pass. */
  function Escape(s: string): string {
    if s == [] then [] else EscapeChar(s[0]) + Escape(s[1..])
  }

  function SearchPattern(needle: string): string {
    "%" + Escape(needle) + "%"
  }

  /** Every escape character is followed by a character that may be escaped; anything else is a data exception. */
  predicate ValidPattern(p: string) {
    if p == [] then true
    else if p[0] == '\\' then |p| >= 2 && Special(p[1]) && ValidPattern(p[2..])
    else ValidPattern(p[1..])
  }

  /** The string is matched by the pattern. */
  predicate Matches(s: string, p: string)
    decreases |p|, |s|
  {
    if p == [] then s == []
    else if p[0] == '%' then Matches(s, p[1..]) || (s != [] && Matches(s[1..], p))
    else if p[0] == '_' then s != [] && Matches(s[1..], p[1..])
    else if p[0] == '\\' then |p| >= 2 && s != [] && s[0] == p[1] && Matches(s[1..], p[2..])
    else s != [] && s[0] == p[0] && Matches(s[1..], p[1..])
  }

  /** strings.Contains */
  predicate Contains(s: string, needle: string) {
    exists i :: 0 <= i <= |s| && needle <= s[i..]
  }

  lemma ContainsIff(s: string, needle: string)
    ensures Contains(s, needle) <==> exists before, after :: s == before + needle + after
  {
    if i :| 0 <= i <= |s| && needle <= s[i..] {
      assert s == s[..i] + needle + s[i + |needle|..];
    }
    if before, after :| s == before + needle + after {
      assert needle <= s[|before|..];
    }
  }

  lemma {:induction false} PercentMatchesAnything(s: string)
    ensures Matches(s, "%")
  {
    if s != [] {
      PercentMatchesAnything(s[1..]);
    }
  }

  /** An escaped needle in front of '%' matches exactly the strings that start with the needle. */
  lemma {:induction false} EscapedMatchesPrefix(s: string, needle: string)
    ensures Matches(s, Escape(needle) + "%") <==> needle <= s
  {
    if needle == [] {
      assert Escape(needle) + "%" == "%";
      PercentMatchesAnything(s);
    } else {
      var c, rest := EscapeChar(needle[0]), Escape(needle[1..]) + "%";
      var p := Escape(needle) + "%";
      assert p == c + rest;
      assert p[|c|..] == rest;
      if s != [] {
        EscapedMatchesPrefix(s[1..], needle[1..]);
        assert needle <= s <==> needle[0] == s[0] && needle[1..] <= s[1..];
      }
    }
  }

  /** Searching with the escaped pattern is substring search, whatever characters the needle has. */
  lemma {:induction false} SearchIsContains(s: string, needle: string)
    ensures Matches(s, SearchPattern(needle)) <==> Contains(s, needle)
  {
    var p := SearchPattern(needle);
    assert p[1..] == Escape(needle) + "%";
    EscapedMatchesPrefix(s, needle);
    assert s[0..] == s;
    if s != [] {
      SearchIsContains(s[1..], needle);
      assert forall i :: 0 <= i <= |s[1..]| ==> s[1..][i..] == s[i + 1..];
      if Contains(s, needle) && !(needle <= s) {
        var i :| 0 <= i <= |s| && needle <= s[i..];
        assert needle <= s[1..][i - 1..];
      }
      if Contains(s[1..], needle) {
        var i :| 0 <= i <= |s[1..]| && needle <= s[1..][i..];
        assert needle <= s[i + 1..];
      }
    }
  }

  lemma {:induction false} EscapedIsValid(needle: string)
    ensures ValidPattern(Escape(needle) + "%")
  {
    if needle == [] {
      assert Escape(needle) + "%" == "%";
    } else {
      var c, rest := EscapeChar(needle[0]), Escape(needle[1..]) + "%";
      EscapedIsValid(needle[1..]);
      assert Escape(needle) + "%" == c + rest;
      assert (c + rest)[|c|..] == rest;
    }
  }

  /** The pattern never holds an invalid escape sequence. */
  lemma SearchPatternIsValid(needle: string)
    ensures ValidPattern(SearchPattern(needle))
  {
    EscapedIsValid(needle);
    assert SearchPattern(needle)[1..] == Escape(needle) + "%";
  }
}
