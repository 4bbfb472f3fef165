/** The two string operations of Go's `strings` package that the bot relies on. */
module Text {

  /** `sub` occurs in `s` starting at index `i`. */
  predicate OccursAt(s: string, sub: string, i: int) {
    0 <= i && i + |sub| <= |s| && s[i..i + |sub|] == sub
  }

  /** strings.Contains */
  function Contains(s: string, sub: string): bool
    decreases |s|
  {
    if sub <= s then true
    else if |s| == 0 then false
    else Contains(s[1..], sub)
  }

  /** An occurrence after the first character is an occurrence in the tail. */
  lemma OccursShift(s: string, sub: string, i: int)
    requires |s| > 0 && 0 <= i
    ensures OccursAt(s, sub, i + 1) <==> OccursAt(s[1..], sub, i)
  {
    if i + 1 + |sub| <= |s| {
      assert s[1..][i..i + |sub|] == s[i + 1..i + 1 + |sub|];
    }
  }

  /** Contains finds an occurrence exactly when one exists. */
  lemma {:induction false} ContainsIff(s: string, sub: string)
    ensures Contains(s, sub) <==> exists i :: OccursAt(s, sub, i)
    decreases |s|
  {
    if sub <= s {
      assert OccursAt(s, sub, 0);
    } else if |s| > 0 {
      ContainsIff(s[1..], sub);
      if Contains(s[1..], sub) {
        var i :| OccursAt(s[1..], sub, i);
        OccursShift(s, sub, i);
      } else {
        forall i | 1 <= i
          ensures !OccursAt(s, sub, i)
        {
          OccursShift(s, sub, i - 1);
        }
      }
    }
  }

  /** A string built around `sub` contains `sub`. */
  lemma ContainsInfix(a: string, sub: string, b: string)
    ensures Contains(a + sub + b, sub)
  {
    var s := a + sub + b;
    assert s[|a|..|a| + |sub|] == sub;
    assert OccursAt(s, sub, |a|);
    ContainsIff(s, sub);
  }

  /** An occurrence stays an occurrence inside a longer string. */
  lemma ContainsWithin(a: string, s: string, b: string, sub: string)
    requires Contains(s, sub)
    ensures Contains(a + s + b, sub)
  {
    ContainsIff(s, sub);
    var i :| OccursAt(s, sub, i);
    var t := a + s + b;
    assert t[|a| + i..|a| + i + |sub|] == s[i..i + |sub|];
    assert OccursAt(t, sub, |a| + i);
    ContainsIff(t, sub);
  }

  /** Text around a string keeps what the string contains. */
  lemma ContainsAppended(s: string, t: string, sub: string)
    requires Contains(s, sub)
    ensures Contains(s + t, sub) && Contains(t + s, sub)
  {
    ContainsWithin("", s, t, sub);
    ContainsWithin(t, s, "", sub);
    assert "" + s + t == s + t;
    assert t + s + "" == t + s;
  }

  /** Every string contains itself. */
  lemma ContainsSelf(s: string)
    ensures Contains(s, s)
  {
  }

  /** The empty string contains no non-empty string. */
  lemma EmptyContainsNothing(sub: string)
    requires sub != []
    ensures !Contains([], sub)
  {
  }

  /** strings.ReplaceAll(s, " ", "%20") */
  function EscapeSpaces(s: string): (r: string)
    ensures ' ' !in r
  {
    if s == [] then []
    else (if s[0] == ' ' then "%20" else [s[0]]) + EscapeSpaces(s[1..])
  }

  /** The inverse direction: every "%20" back to a space. */
  function UnescapeSpaces(r: string): string
    decreases |r|
  {
    if "%20" <= r then " " + UnescapeSpaces(r[3..])
    else if r == [] then []
    else [r[0]] + UnescapeSpaces(r[1..])
  }

  lemma {:induction false} EscapeSpacesAppend(a: string, b: string)
    ensures EscapeSpaces(a + b) == EscapeSpaces(a) + EscapeSpaces(b)
  {
    if a != [] {
      assert (a + b)[1..] == a[1..] + b;
      assert (a + b)[0] == a[0];
      EscapeSpacesAppend(a[1..], b);
    } else {
      assert a + b == b;
    }
  }

  /** Text without spaces is left as it is. */
  lemma {:induction false} EscapeSpacesKeeps(s: string)
    requires ' ' !in s
    ensures EscapeSpaces(s) == s
  {
    if s != [] {
      EscapeSpacesKeeps(s[1..]);
      assert s == [s[0]] + s[1..];
    }
  }

  /** Words joined by a separator. */
  function Join(words: seq<string>, sep: string): string {
    if |words| == 0 then ""
    else if |words| == 1 then words[0]
    else words[0] + sep + Join(words[1..], sep)
  }

  /** Escaping words joined by spaces joins them by "%20" instead. */
  lemma {:induction false} EscapeJoin(words: seq<string>)
    requires forall i :: 0 <= i < |words| ==> ' ' !in words[i]
    ensures EscapeSpaces(Join(words, " ")) == Join(words, "%20")
  {
    if |words| > 1 {
      EscapeJoin(words[1..]);
      EscapeSpacesAppend(words[0] + " ", Join(words[1..], " "));
      EscapeSpacesAppend(words[0], " ");
      EscapeSpacesKeeps(words[0]);
      assert EscapeSpaces(" ") == "%20";
    } else if |words| == 1 {
      EscapeSpacesKeeps(words[0]);
    }
  }

  /** Escaping loses nothing for text that has no '%' of its own. */
  lemma {:induction false} EscapeRoundTrip(s: string)
    requires '%' !in s
    ensures UnescapeSpaces(EscapeSpaces(s)) == s
  {
    if s != [] {
      EscapeRoundTrip(s[1..]);
      var rest := EscapeSpaces(s[1..]);
      if s[0] == ' ' {
        assert EscapeSpaces(s) == "%20" + rest;
        assert ("%20" + rest)[3..] == rest;
      } else {
        assert EscapeSpaces(s) == [s[0]] + rest;
        assert !("%20" <= [s[0]] + rest);
        assert ([s[0]] + rest)[1..] == rest;
      }
    }
  }
}
