/** Text normalisation: `str.strip` and `str.lower` over ASCII, and the rules built on them. */
module Texts {
  import opened Outcomes

  predicate IsBlank(c: char) { c in " \t\n\r" }

  /** `not value.strip()`. */
  predicate Blank(s: string) { forall i :: 0 <= i < |s| ==> IsBlank(s[i]) }

  function TrimEnd(s: string): string {
    if s != [] && IsBlank(s[|s| - 1]) then TrimEnd(s[..|s| - 1]) else s
  }

  function Strip(s: string): string {
    if s != [] && IsBlank(s[0]) then Strip(s[1..]) else TrimEnd(s)
  }

  predicate Trimmed(s: string) { s == [] || (!IsBlank(s[0]) && !IsBlank(s[|s| - 1])) }

  lemma {:induction false} TrimEndTrims(s: string)
    requires s == [] || !IsBlank(s[0])
    ensures Trimmed(TrimEnd(s))
    ensures s != [] ==> TrimEnd(s) != [] && TrimEnd(s)[0] == s[0]
  {
    if s != [] && IsBlank(s[|s| - 1]) {
      TrimEndTrims(s[..|s| - 1]);
    }
  }

  lemma {:induction false} StripTrims(s: string)
    ensures Trimmed(Strip(s)) && (Strip(s) == [] <==> Blank(s))
  {
    if s != [] && IsBlank(s[0]) {
      StripTrims(s[1..]);
      assert Blank(s) <==> Blank(s[1..]) by {
        assert forall i :: 1 <= i < |s| ==> s[i] == s[1..][i - 1];
      }
    } else {
      TrimEndTrims(s);
    }
  }

  lemma {:induction false} TrimEndIs(t: string, b: string)
    requires Blank(b) && (t == [] || !IsBlank(t[|t| - 1]))
    ensures TrimEnd(t + b) == t
  {
    if b == [] {
      assert t + b == t;
    } else {
      assert (t + b)[..|t + b| - 1] == t + b[..|b| - 1];
      assert (t + b)[|t + b| - 1] == b[|b| - 1];
      TrimEndIs(t, b[..|b| - 1]);
    }
  }

  /** Stripping leaves what stands between the blanks at both ends, and nothing else is trimmed text between blanks. */
  lemma {:induction false} StripIs(a: string, t: string, b: string)
    requires Blank(a) && Trimmed(t) && Blank(b)
    ensures Strip(a + t + b) == t
  {
    var s := a + t + b;
    if a != [] {
      assert s[1..] == a[1..] + t + b;
      assert Blank(a[1..]) by {
        assert forall i :: 0 <= i < |a| - 1 ==> a[1..][i] == a[i + 1];
      }
      StripIs(a[1..], t, b);
    } else if t == [] {
      assert s == b;
      StripTrims(s);
    } else {
      assert s == t + b;
      TrimEndIs(t, b);
    }
  }

  lemma {:induction false} TrimEndSplits(s: string) returns (b: string)
    ensures Blank(b) && s == TrimEnd(s) + b
  {
    if s != [] && IsBlank(s[|s| - 1]) {
      var rest := TrimEndSplits(s[..|s| - 1]);
      b := rest + [s[|s| - 1]];
      assert s == s[..|s| - 1] + [s[|s| - 1]];
    } else {
      b := [];
    }
  }

  /** Every text is its stripped form between blanks. */
  lemma {:induction false} StripSplits(s: string) returns (a: string, b: string)
    ensures Blank(a) && Blank(b) && Trimmed(Strip(s)) && s == a + Strip(s) + b
  {
    StripTrims(s);
    if s != [] && IsBlank(s[0]) {
      var x, y := StripSplits(s[1..]);
      a, b := [s[0]] + x, y;
      assert s == [s[0]] + s[1..];
    } else {
      b := TrimEndSplits(s);
      a := [];
    }
  }

  /** Stripping twice is stripping once. */
  lemma {:induction false} StripIdempotent(s: string)
    ensures Strip(Strip(s)) == Strip(s)
  {
    StripTrims(s);
  }

  function LowerChar(c: char): char { if 'A' <= c <= 'Z' then ((c as int) + 32) as char else c }

  function Lower(s: string): string { seq(|s|, i requires 0 <= i < |s| => LowerChar(s[i])) }

  predicate SameLetter(a: char, b: char) {
    || a == b
    || ('A' <= a <= 'Z' && b as int == a as int + 32)
    || ('A' <= b <= 'Z' && a as int == b as int + 32)
  }

  /** Two texts are one in lower case exactly when they agree letter by letter up to case. */
  lemma {:induction false} LowerTells(s: string, t: string)
    ensures Lower(s) == Lower(t) <==> |s| == |t| && forall i :: 0 <= i < |s| ==> SameLetter(s[i], t[i])
  {
    if Lower(s) == Lower(t) {
      forall i | 0 <= i < |s| ensures SameLetter(s[i], t[i]) {
        assert Lower(s)[i] == Lower(t)[i];
      }
    }
  }

  lemma {:induction false} LowerStripped(s: string)
    ensures var platform := Lower(Strip(s)); Lower(Strip(platform)) == platform && (platform == [] <==> Blank(s))
  {
    StripTrims(s);
    var platform := Lower(Strip(s));
    assert Trimmed(platform);
    assert Strip(platform) == platform;
    assert Lower(platform) == platform;
  }

  function RequiredText(s: string): Option<string> { if Strip(s) == [] then None else Some(Strip(s)) }

  /** Blank optional text counts as absent. */
  function OptionalText(s: Option<string>): Option<string> {
    if s.None? || Strip(s.value) == [] then None else Some(Strip(s.value))
  }

  function PlatformText(s: string): Option<string> {
    if Lower(Strip(s)) == [] then None else Some(Lower(Strip(s)))
  }

  lemma {:induction false} NormalTexts(s: string, o: Option<string>)
    ensures RequiredText(s).Some? ==> RequiredText(RequiredText(s).value) == RequiredText(s)
    ensures RequiredText(s).Some? <==> !Blank(s)
    ensures OptionalText(OptionalText(o)) == OptionalText(o)
    ensures PlatformText(s).Some? ==> PlatformText(PlatformText(s).value) == PlatformText(s)
  {
    StripTrims(s);
    StripIdempotent(s);
    LowerStripped(s);
    if o.Some? {
      StripIdempotent(o.value);
    }
  }
}
