/** `handleAmountChange` of src/components/BillingOptions.tsx: the amount
    field keeps only digits and dots, and refuses an edit whose second
    dot-separated part is longer than two characters. */
module AmountInput {

  predicate AllowedChar(c: char) {
    '0' <= c <= '9' || c == '.'
  }

  predicate AllAllowed(s: string) {
    forall i | 0 <= i < |s| :: AllowedChar(s[i])
  }

  /** `value.replace(/[^0-9.]/g, '')`. */
  function Strip(s: string): (r: string)
    ensures AllAllowed(r)
    ensures |r| <= |s|
  {
    if s == [] then []
    else (if AllowedChar(s[0]) then [s[0]] else []) + Strip(s[1..])
  }

  /** Stripping keeps a string that has nothing to strip. */
  lemma {:induction false} StripKeepsAllowed(s: string)
    requires AllAllowed(s)
    ensures Strip(s) == s
  {
    if s != [] {
      StripKeepsAllowed(s[1..]);
    }
  }

  /** One character is kept exactly when it is a digit or a dot; with
      `StripConcat` this fixes `Strip` on every string. */
  lemma StripSingle(c: char)
    ensures Strip([c]) == if AllowedChar(c) then [c] else []
  {
    assert [c][1..] == [];
  }

  /** Stripping twice is stripping once. */
  lemma StripIdempotent(s: string)
    ensures Strip(Strip(s)) == Strip(s)
  {
    StripKeepsAllowed(Strip(s));
  }

  /** Stripping works character by character. */
  lemma {:induction false} StripConcat(a: string, b: string)
    ensures Strip(a + b) == Strip(a) + Strip(b)
  {
    if a == [] {
      assert a + b == b;
    } else {
      assert (a + b)[0] == a[0];
      assert (a + b)[1..] == a[1..] + b;
      StripConcat(a[1..], b);
    }
  }

  /** `s.split('.')`. */
  function Split(s: string): (parts: seq<string>)
    ensures |parts| >= 1
    ensures forall p | p in parts :: '.' !in p
    ensures '.' !in s ==> parts == [s]
  {
    if s == [] then [""]
    else
      var rest := Split(s[1..]);
      assert '.' !in s ==> '.' !in s[1..] && [s[0]] + s[1..] == s;
      if s[0] == '.' then [""] + rest
      else [[s[0]] + rest[0]] + rest[1..]
  }

  /** Parts joined back with dots. */
  function Join(parts: seq<string>): string
    requires |parts| >= 1
  {
    if |parts| == 1 then parts[0] else parts[0] + "." + Join(parts[1..])
  }

  /** The first part is the text before the first dot; after it comes the
      split of what follows that dot. */
  lemma {:induction false} SplitShape(s: string)
    ensures var h := |Split(s)[0]|;
      && h <= |s| && Split(s)[0] == s[..h] && '.' !in s[..h]
      && (h == |s| ==> |Split(s)| == 1)
      && (h < |s| ==> s[h] == '.' && Split(s)[1..] == Split(s[h + 1..]))
  {
    if s != [] && s[0] != '.' {
      SplitShape(s[1..]);
      var h' := |Split(s[1..])[0]|;
      assert s[1..][..h'] == s[1..h' + 1];
      assert s[..h' + 1] == [s[0]] + s[1..h' + 1];
      if h' < |s| - 1 {
        assert s[1..][h' + 1..] == s[h' + 2..];
      }
    }
  }

  /** Splitting loses nothing: joining the parts with dots gives the
      string back. */
  lemma {:induction false} JoinSplit(s: string)
    ensures Join(Split(s)) == s
    decreases |s|
  {
    SplitShape(s);
    var h := |Split(s)[0]|;
    if h < |s| {
      JoinSplit(s[h + 1..]);
      assert s == s[..h] + "." + s[h + 1..];
    }
  }

  /** `parts[1] && parts[1].length > 2`. */
  predicate Rejects(value: string) {
    var parts := Split(value);
    |parts| > 1 && |parts[1]| > 2
  }

  /** The rule stated without splitting: after the first dot come at least
      three characters, none of them a dot. */
  predicate LongSecondPart(v: string) {
    exists i | 0 <= i < |v| && v[i] == '.' && '.' !in v[..i] ::
      i + 3 < |v| && v[i + 1] != '.' && v[i + 2] != '.' && v[i + 3] != '.'
  }

  /** A split's first part is longer than two exactly when the string
      starts with three characters that are not dots. */
  lemma HeadLongerThanTwo(s: string)
    ensures |Split(s)[0]| > 2 <==> |s| > 2 && s[0] != '.' && s[1] != '.' && s[2] != '.'
  {
    SplitShape(s);
    var h := |Split(s)[0]|;
    if |Split(s)[0]| > 2 {
      assert s[0] == s[..h][0] && s[1] == s[..h][1] && s[2] == s[..h][2];
    }
  }

  /** The split-based test and the direct statement agree. */
  lemma RejectsIffLongSecondPart(v: string)
    ensures Rejects(v) <==> LongSecondPart(v)
  {
    SplitShape(v);
    var h := |Split(v)[0]|;
    if h == |v| {
      assert v[..h] == v;
      assert forall i | 0 <= i < |v| :: v[i] != '.';
    } else {
      var rest := v[h + 1..];
      assert Split(v)[1] == Split(rest)[0];
      HeadLongerThanTwo(rest);
      // the first dot is at h and nowhere else
      forall i | 0 <= i < |v| && v[i] == '.' && '.' !in v[..i]
        ensures i == h
      {
      }
      if Rejects(v) {
        assert v[h + 1] == rest[0] && v[h + 2] == rest[1] && v[h + 3] == rest[2];
      }
    }
  }

  /** `handleAmountChange`: the new amount is the stripped input, unless
      the stripped input is refused, in which case the amount stays. */
  function HandleAmountChange(amount: string, input: string): (r: string)
    // the refusal rule, stated without splitting
    ensures LongSecondPart(Strip(input)) ==> r == amount
    ensures !LongSecondPart(Strip(input)) ==> r == Strip(input) && AllAllowed(r) && !LongSecondPart(r)
    // an amount made only of digits and dots, with no long second part, stays so
    ensures AllAllowed(amount) && !LongSecondPart(amount) ==> AllAllowed(r) && !LongSecondPart(r)
  {
    RejectsIffLongSecondPart(Strip(input));
    var value := Strip(input);
    if Rejects(value) then amount else value
  }

  /** More dots than one are not refused as such. */
  lemma SeveralDotsAccepted()
    ensures HandleAmountChange("0", "1.5.999") == "1.5.999"
  {
    var v := "1.5.999";
    assert AllAllowed(v);
    StripKeepsAllowed(v);
    // the only first dot is at 1, and a dot follows two places later
    forall i | 0 <= i < |v| && v[i] == '.' && '.' !in v[..i]
      ensures i == 1
    {
    }
  }

  /** A third decimal is refused, and the old amount stays. */
  lemma ThirdDecimalRefused()
    ensures HandleAmountChange("12.5", "$12.505") == "12.5"
  {
    var v := "12.505";
    assert Strip("$" + v) == v by {
      StripConcat("$", v);
      assert Strip("$") == [];
      assert AllAllowed(v);
      StripKeepsAllowed(v);
    }
    assert "$12.505" == "$" + v;
    assert LongSecondPart(v) by {
      assert v[..2] == "12";
      assert v[2] == '.' && '.' !in v[..2] && 2 + 3 < |v| && v[3] != '.' && v[4] != '.' && v[5] != '.';
    }
  }
}
