/**
  Surrogate repair of the LLM client (backend/matrix/llm/clients.py).

  A Python string is a sequence of code points in which surrogates may occur on their own.
  The repair joins every high surrogate that is directly followed by a low one.  Its
  meaning is given here by the UTF-16 code units of a string (RFC 2781): the repaired string
  is the one string with the same code units that has no joinable pair left.
 */
module SurrogateRepair {

  type CodePoint = c: int | 0 <= c < 0x110000

  predicate IsHigh(c: CodePoint) { 0xD800 <= c <= 0xDBFF }

  predicate IsLow(c: CodePoint) { 0xDC00 <= c <= 0xDFFF }

  /** The two elements at `i` and `i + 1` are a pair the repair joins. */
  predicate PairAt(text: seq<CodePoint>, i: int)
  {
    0 <= i < |text| - 1 && IsHigh(text[i]) && IsLow(text[i + 1])
  }

  ghost predicate Paired(text: seq<CodePoint>)
  {
    exists i :: PairAt(text, i)
  }

  /** Section 2.1 of RFC 2781: the UTF-16 code units of one code point. */
  function UnitsOf(c: CodePoint): seq<CodePoint>
  {
    if c < 0x10000 then [c]
    else
      var u := c - 0x10000;
      [0xD800 + u / 0x400, 0xDC00 + u % 0x400]
  }

  function Units(text: seq<CodePoint>): seq<CodePoint>
  {
    if text == [] then [] else UnitsOf(text[0]) + Units(text[1..])
  }

  /** The arithmetic of the source, with its shift written as a multiplication. */
  function Join(high: CodePoint, low: CodePoint): CodePoint
    requires IsHigh(high) && IsLow(low)
  {
    0x10000 + (high - 0xD800) * 0x400 + (low - 0xDC00)
  }

  function Repair(text: seq<CodePoint>): seq<CodePoint>
  {
    if text == [] then []
    else if PairAt(text, 0) then [Join(text[0], text[1])] + Repair(text[2..])
    else [text[0]] + Repair(text[1..])
  }

  /** The repair from position `i` on, one element or one pair further. */
  lemma RepairNext(out: seq<CodePoint>, text: seq<CodePoint>, i: nat)
    requires i < |text|
    ensures out + Repair(text[i..]) ==
            if PairAt(text, i) then (out + [Join(text[i], text[i + 1])]) + Repair(text[i + 2..])
            else (out + [text[i]]) + Repair(text[i + 1..])
  {
    var rest := text[i..];
    assert PairAt(rest, 0) <==> PairAt(text, i);
    if PairAt(text, i) {
      assert rest[2..] == text[i + 2..];
    } else {
      assert rest[1..] == text[i + 1..];
    }
  }

  /** The index-driven loop of the source. */
  method FixSurrogates(text: seq<CodePoint>) returns (out: seq<CodePoint>)
    ensures out == Repair(text)
  {
    if text == [] {
      return text;
    }
    out := [];
    var i := 0;
    var n := |text|;
    while i < n
      invariant 0 <= i <= n
      invariant Repair(text) == out + Repair(text[i..])
    {
      var code := text[i];
      RepairNext(out, text, i);
      if IsHigh(code) && i + 1 < n {
        var next := text[i + 1];
        if IsLow(next) {
          out := out + [Join(code, next)];
          i := i + 2;
          continue;
        }
      }
      out := out + [code];
      i := i + 1;
    }
  }

  /** Section 2.2 of RFC 2781: joining undoes the expansion, in both directions. */
  lemma JoinExpands(high: CodePoint, low: CodePoint)
    requires IsHigh(high) && IsLow(low)
    ensures Join(high, low) >= 0x10000 && UnitsOf(Join(high, low)) == [high, low]
  {
  }

  lemma ExpansionJoins(c: CodePoint)
    requires c >= 0x10000
    ensures var u := UnitsOf(c); |u| == 2 && IsHigh(u[0]) && IsLow(u[1]) && Join(u[0], u[1]) == c
  {
  }

  /** No code unit is lost, added or changed, whatever the input. */
  lemma {:induction false} RepairKeepsUnits(text: seq<CodePoint>)
    ensures Units(Repair(text)) == Units(text)
  {
    if text != [] {
      if PairAt(text, 0) {
        RepairKeepsUnits(text[2..]);
        JoinExpands(text[0], text[1]);
        assert text[1..][1..] == text[2..];
        var r := Repair(text);
        assert r[1..] == Repair(text[2..]);
      } else {
        RepairKeepsUnits(text[1..]);
        var r := Repair(text);
        assert r[1..] == Repair(text[1..]);
      }
    }
  }

  /** No joinable pair is left; the head clause carries the induction. */
  lemma {:induction false} RepairLeavesNoPair(text: seq<CodePoint>)
    ensures !Paired(Repair(text))
    ensures Repair(text) != [] && IsLow(Repair(text)[0]) ==> text != [] && text[0] == Repair(text)[0]
  {
    if text != [] {
      var tail := if PairAt(text, 0) then text[2..] else text[1..];
      RepairLeavesNoPair(tail);
      var r := Repair(text);
      assert r[1..] == Repair(tail);
      forall i
        ensures !PairAt(r, i)
      {
        assert i > 0 && PairAt(r, i) ==> PairAt(Repair(tail), i - 1);
      }
    }
  }

  /** A string without joinable pairs is determined by its code units. */
  lemma {:induction false} UnitsInjective(a: seq<CodePoint>, b: seq<CodePoint>)
    requires !Paired(a) && !Paired(b) && Units(a) == Units(b)
    ensures a == b
  {
    if a == [] || b == [] {
    } else {
      HeadsAgree(a, b);
      assert Units(a)[|UnitsOf(a[0])|..] == Units(a[1..]);
      assert Units(b)[|UnitsOf(b[0])|..] == Units(b[1..]);
      TailUnpaired(a);
      TailUnpaired(b);
      UnitsInjective(a[1..], b[1..]);
      assert a == [a[0]] + a[1..] && b == [b[0]] + b[1..];
    }
  }

  lemma TailUnpaired(a: seq<CodePoint>)
    requires a != [] && !Paired(a)
    ensures !Paired(a[1..])
  {
    forall i
      ensures !PairAt(a[1..], i)
    {
      assert PairAt(a[1..], i) ==> PairAt(a, i + 1);
    }
  }

  /** Only a joinable pair looks like the expansion of an astral character. */
  lemma ExpansionPrefix(a: seq<CodePoint>, c: CodePoint)
    requires a != [] && a[0] < 0x10000 && c >= 0x10000 && UnitsOf(c) <= Units(a)
    ensures PairAt(a, 0)
  {
    ExpansionJoins(c);
    assert a[0] == Units(a)[0] == UnitsOf(c)[0];
    assert Units(a[1..])[0] == Units(a)[1] == UnitsOf(c)[1];
    if a[1] >= 0x10000 {
      ExpansionJoins(a[1]);
    }
  }

  lemma AstralHead(a: seq<CodePoint>)
    requires a != [] && a[0] >= 0x10000
    ensures UnitsOf(a[0]) <= Units(a) && |UnitsOf(a[0])| == 2
    ensures IsHigh(Units(a)[0]) && IsLow(Units(a)[1]) && Join(Units(a)[0], Units(a)[1]) == a[0]
  {
    ExpansionJoins(a[0]);
    assert UnitsOf(a[0])[0] == Units(a)[0] && UnitsOf(a[0])[1] == Units(a)[1];
  }

  lemma HeadsAgree(a: seq<CodePoint>, b: seq<CodePoint>)
    requires a != [] && b != [] && !Paired(a) && !Paired(b) && Units(a) == Units(b)
    ensures a[0] == b[0]
  {
    if a[0] >= 0x10000 {
      AstralHead(a);
      if b[0] >= 0x10000 {
        AstralHead(b);
      } else {
        ExpansionPrefix(b, a[0]);
      }
    } else if b[0] >= 0x10000 {
      AstralHead(b);
      ExpansionPrefix(a, b[0]);
    } else {
      assert UnitsOf(a[0])[0] == Units(a)[0] && UnitsOf(b[0])[0] == Units(b)[0];
    }
  }

  /** The repair is the only pair-free string with the input's code units. */
  lemma RepairUnique(text: seq<CodePoint>, out: seq<CodePoint>)
    ensures out == Repair(text) <==> !Paired(out) && Units(out) == Units(text)
  {
    RepairKeepsUnits(text);
    RepairLeavesNoPair(text);
    if !Paired(out) && Units(out) == Units(text) {
      UnitsInjective(out, Repair(text));
    }
  }

  lemma {:induction false} UnitsIdempotent(text: seq<CodePoint>)
    ensures Units(Units(text)) == Units(text)
  {
    if text != [] {
      UnitsIdempotent(text[1..]);
      var u := Units(text);
      if text[0] >= 0x10000 {
        ExpansionJoins(text[0]);
        assert u[1..][1..] == Units(text[1..]);
      } else {
        assert u[1..] == Units(text[1..]);
      }
    }
  }

  /**
    The promise of the source: a string whose astral characters arrived as separate UTF-16
    halves comes back, unless it held a joinable pair of its own, in which case nothing can
    tell the pair from an expanded character.
   */
  lemma RepairInvertsExpansion(text: seq<CodePoint>)
    ensures Repair(Units(text)) == text <==> !Paired(text)
  {
    UnitsIdempotent(text);
    RepairUnique(Units(text), text);
  }

  lemma RepairIdempotent(text: seq<CodePoint>)
    ensures Repair(Repair(text)) == Repair(text)
  {
    RepairLeavesNoPair(text);
    RepairUnique(Repair(text), Repair(text));
  }

  /** How many pairs start before position `i`. */
  function PairsBefore(text: seq<CodePoint>, i: nat): nat
  {
    if i == 0 then 0 else PairsBefore(text, i - 1) + if PairAt(text, i - 1) then 1 else 0
  }

  /** Each element outside a pair is kept, displaced only by the pairs joined before it. */
  lemma {:induction false} LoneElementKept(text: seq<CodePoint>, i: nat)
    requires i < |text| && !PairAt(text, i) && !PairAt(text, i - 1)
    ensures 0 <= i - PairsBefore(text, i) < |Repair(text)|
    ensures Repair(text)[i - PairsBefore(text, i)] == text[i]
    decreases |text|
  {
    if i > 0 {
      var w := if PairAt(text, 0) then 2 else 1;
      var tail := text[w..];
      assert !PairAt(tail, i - w);
      assert !PairAt(tail, i - w - 1);
      LoneElementKept(tail, i - w);
      PairsShift(text, w, i - w);
      assert Repair(text)[1..] == Repair(tail);
      assert PairsBefore(text, 1) == w - 1;
      if w == 2 {
        assert !PairAt(text, 1);
        assert PairsBefore(text, 2) == 1;
      }
    }
  }

  lemma {:induction false} PairsShift(text: seq<CodePoint>, w: nat, i: nat)
    requires w + i <= |text|
    ensures PairsBefore(text, w + i) == PairsBefore(text, w) + PairsBefore(text[w..], i)
  {
    if i > 0 {
      PairsShift(text, w, i - 1);
      assert PairAt(text[w..], i - 1) <==> PairAt(text, w + i - 1);
    }
  }
}
