/** Python's `str(n)`, `int(s)`, `sep.join` and `s.split(sep)` on the strings trace addresses are made of. */
module Decimals {
  import opened Options

  predicate IsDigit(c: char) { '0' <= c <= '9' }

  predicate IsNumber(s: string) { s != "" && forall c :: c in s ==> IsDigit(c) }

  function DigitOf(d: nat): (c: char)
    requires d < 10
    ensures IsDigit(c) && (c == '0' <==> d == 0) && DigitValue(c) == d
  {
    ('0' as int + d) as char
  }

  function DigitValue(c: char): (d: nat)
    requires IsDigit(c)
    ensures d < 10 && (d == 0 <==> c == '0')
  {
    c as int - '0' as int
  }

  function Print(n: nat): (s: string)
    ensures IsNumber(s)
  {
    var last := [DigitOf(n % 10)];
    if n < 10 then last else Print(n / 10) + last
  }

  function Value(s: string): nat
    requires forall c :: c in s ==> IsDigit(c)
  {
    if s == "" then 0
    else
      assert s[|s| - 1] in s;
      10 * Value(s[..|s| - 1]) + DigitValue(s[|s| - 1])
  }

  /** `None` is the ValueError. */
  function ParseInt(s: string): Option<nat> { if IsNumber(s) then Some(Value(s)) else None }

  /** The one spelling of a number that printing produces. */
  predicate Canonical(s: string) { IsNumber(s) && (s[0] != '0' || |s| == 1) }

  lemma {:induction false} PrintThenParse(n: nat)
    ensures ParseInt(Print(n)) == Some(n) && Canonical(Print(n))
    ensures Print(n)[0] == '0' ==> n == 0
  {
    if n >= 10 {
      PrintThenParse(n / 10);
      var last := [DigitOf(n % 10)];
      assert (Print(n / 10) + last)[..|Print(n / 10)|] == Print(n / 10);
    } else {
      assert Print(n) == [DigitOf(n)];
      assert Print(n)[..0] == "";
      assert Value(Print(n)) == DigitValue(DigitOf(n));
    }
  }

  lemma {:induction false} CanonicalIsPositive(s: string)
    requires IsNumber(s) && s[0] != '0'
    ensures Value(s) > 0
  {
    assert s[|s| - 1] in s;
    if |s| > 1 {
      CanonicalIsPositive(s[..|s| - 1]);
    } else {
      assert s[..0] == "";
      assert Value(s) == DigitValue(s[0]);
    }
  }

  lemma PrintOfLonger(n: nat, d: nat)
    requires n > 0 && d < 10
    ensures Print(10 * n + d) == Print(n) + [DigitOf(d)]
  {
    assert (10 * n + d) / 10 == n && (10 * n + d) % 10 == d;
  }

  lemma {:induction false} ParseThenPrint(s: string)
    requires Canonical(s)
    ensures Print(Value(s)) == s
  {
    var init, last := s[..|s| - 1], s[|s| - 1];
    assert s == init + [last] && last in s;
    DigitIsItsValue(last);
    if |s| > 1 {
      assert IsNumber(init) && init[0] == s[0];
      CanonicalIsPositive(init);
      ParseThenPrint(init);
      PrintOfLonger(Value(init), DigitValue(last));
    } else {
      assert init == "" && Value(init) == 0;
      assert Value(s) == DigitValue(last);
    }
  }

  lemma DigitIsItsValue(c: char)
    requires IsDigit(c)
    ensures DigitOf(DigitValue(c)) == c
  {
  }

  /** A number is printed back as it was written exactly when it has no leading zero. */
  lemma PrintsBackExactlyWhen(s: string)
    requires IsNumber(s)
    ensures Print(Value(s)) == s <==> Canonical(s)
  {
    if Canonical(s) { ParseThenPrint(s); }
    PrintThenParse(Value(s));
  }

  // ----------------------------------------------------------------- split and join

  function Split(s: string): (pieces: seq<string>)
    ensures pieces != []
  {
    if s == "" then [""]
    else
      var before, c := Split(s[..|s| - 1]), s[|s| - 1];
      var n := |before| - 1;
      if c == ',' then before + [""] else before[..n] + [before[n] + [c]]
  }

  function Join(pieces: seq<string>): string {
    var n := |pieces| - 1;
    if n < 0 then "" else if n == 0 then pieces[0] else Join(pieces[..n]) + "," + pieces[n]
  }

  predicate Plain(s: string) { ',' !in s }

  lemma {:induction false} SplitIsPlain(s: string)
    ensures forall p :: p in Split(s) ==> Plain(p)
  {
    if s != "" {
      SplitIsPlain(s[..|s| - 1]);
      var before, c := Split(s[..|s| - 1]), s[|s| - 1];
      var n := |before| - 1;
      assert Plain(before[n]) by { assert before[n] in before; }
      forall p | p in Split(s)
        ensures Plain(p)
      {
        if c == ',' {
          assert p == "" || p in before;
        } else {
          assert p == before[n] + [c] || p in before;
        }
      }
    }
  }

  lemma {:induction false} JoinOfLonger(pieces: seq<string>, c: char)
    requires pieces != []
    ensures var n := |pieces| - 1; Join(pieces[..n] + [pieces[n] + [c]]) == Join(pieces) + [c]
  {
    var n := |pieces| - 1;
    var init, last := pieces[..n], pieces[n];
    assert pieces == init + [last];
    if n > 0 {
      JoinOfAppend(init, last);
      JoinOfAppend(init, last + [c]);
    }
  }

  lemma JoinOfAppend(pieces: seq<string>, p: string)
    requires pieces != []
    ensures Join(pieces + [p]) == Join(pieces) + "," + p
  {
    assert (pieces + [p])[..|pieces|] == pieces;
  }

  lemma {:induction false} JoinOfSplit(s: string)
    ensures Join(Split(s)) == s
  {
    if s != "" {
      var init, c := s[..|s| - 1], s[|s| - 1];
      assert s == init + [c];
      JoinOfSplit(init);
      if c == ',' { JoinOfAppend(Split(init), ""); } else { JoinOfLonger(Split(init), c); }
    }
  }

  /** One more separator and a piece without any: one more element. */
  lemma {:induction false} SplitOfAppend(s: string, p: string)
    requires Plain(p)
    ensures Split(s + "," + p) == Split(s) + [p]
    decreases |p|
  {
    var whole := s + "," + p;
    if p == "" {
      assert whole[..|whole| - 1] == s;
    } else {
      var init := p[..|p| - 1];
      assert forall c :: c in init ==> c in p;
      SplitOfAppend(s, init);
      assert whole[..|whole| - 1] == s + "," + init;
      assert p == init + [p[|p| - 1]];
      assert p[|p| - 1] in p;
      assert (Split(s) + [init])[..|Split(s)|] == Split(s);
    }
  }

  /** A character that is no separator lengthens the last piece. */
  lemma SplitOfLonger(s: string, c: char)
    requires c != ','
    ensures var before := Split(s);
            Split(s + [c]) == before[..|before| - 1] + [before[|before| - 1] + [c]]
  {
    assert (s + [c])[..|s|] == s;
  }

  lemma {:induction false} SplitOfPlain(p: string)
    requires Plain(p)
    ensures Split(p) == [p]
  {
    if p != "" {
      var init, c := p[..|p| - 1], p[|p| - 1];
      assert c in p && Plain(init);
      assert p == init + [c];
      SplitOfPlain(init);
      SplitOfLonger(init, c);
      assert [init][..0] == [];
    }
  }

  lemma {:induction false} SplitOfJoin(pieces: seq<string>)
    requires pieces != [] && forall p :: p in pieces ==> Plain(p)
    ensures Split(Join(pieces)) == pieces
  {
    var init, last := pieces[..|pieces| - 1], pieces[|pieces| - 1];
    assert pieces == init + [last] && last in pieces;
    if init == [] {
      assert Join(pieces) == last;
      SplitOfPlain(last);
    } else {
      assert forall p :: p in init ==> p in pieces;
      SplitOfJoin(init);
      SplitOfAppend(Join(init), last);
      JoinOfAppend(init, last);
    }
  }

  lemma NumbersArePlain(s: string)
    requires forall c :: c in s ==> IsDigit(c)
    ensures Plain(s)
  {
  }
}
