/** The packed next-token mask: one bit per token, 32 tokens a word. */
module Bitmask {
  import opened Options

  /** Bit `b` of a word. */
  function Power(b: nat): bv32
    requires b < 32
  {
    match b
    case 0 => 0x1 case 1 => 0x2 case 2 => 0x4 case 3 => 0x8
    case 4 => 0x10 case 5 => 0x20 case 6 => 0x40 case 7 => 0x80
    case 8 => 0x100 case 9 => 0x200 case 10 => 0x400 case 11 => 0x800
    case 12 => 0x1000 case 13 => 0x2000 case 14 => 0x4000 case 15 => 0x8000
    case 16 => 0x10000 case 17 => 0x20000 case 18 => 0x40000 case 19 => 0x80000
    case 20 => 0x100000 case 21 => 0x200000 case 22 => 0x400000 case 23 => 0x800000
    case 24 => 0x1000000 case 25 => 0x2000000 case 26 => 0x4000000 case 27 => 0x8000000
    case 28 => 0x10000000 case 29 => 0x20000000 case 30 => 0x40000000 case _ => 0x80000000
  }

  /** Token `t` is allowed by the mask. */
  predicate Allowed(words: seq<bv32>, t: nat) {
    t / 32 < |words| && words[t / 32] & Power(t % 32) != 0
  }

  predicate OnePower(w: bv32) {
    w != 0 && w & (w - 1) == 0
  }

  lemma PowerIsOne(b: nat)
    requires b < 32
    ensures OnePower(Power(b))
  {
  }

  lemma PowerHalves(b: nat)
    requires 0 < b < 32
    ensures Power(b) >> 1 == Power(b - 1) && Power(b - 1) << 1 == Power(b)
  {
  }

  lemma OnlyPower(w: bv32, p: bv32)
    requires OnePower(w) && OnePower(p) && w & p != 0
    ensures w == p
  {
  }

  lemma SetPower(w: bv32, p: bv32, q: bv32)
    requires OnePower(p) && OnePower(q)
    ensures ((w | p) & q != 0) == (p == q || w & q != 0)
  {
  }

  lemma LowestPower(w: bv32)
    requires w != 0
    ensures OnePower(w & (0 - w)) && w & (w & (0 - w)) != 0
    ensures w & (w - 1) == 0 ==> w & (0 - w) == w
  {
  }

  function BitLength(x: bv32): nat
    decreases x
  {
    if x == 0 then 0 else 1 + BitLength(x >> 1)
  }

  lemma {:induction false} PowerLength(b: nat)
    requires b < 32
    ensures BitLength(Power(b)) == b + 1
  {
    if b == 0 {
      assert Power(0) >> 1 == 0;
    } else {
      PowerHalves(b);
      PowerLength(b - 1);
    }
  }

  lemma PowersDiffer(b: nat, c: nat)
    requires b < 32 && c < 32 && b != c
    ensures Power(b) != Power(c)
  {
    PowerLength(b);
    PowerLength(c);
  }

  lemma HalfPower(w: bv32)
    requires OnePower(w) && w != 1
    ensures OnePower(w >> 1) && (w >> 1) << 1 == w && w >> 1 < 0x8000_0000
  {
  }

  /** A word with one bit is that bit's power, and its bit length tells which. */
  lemma {:induction false} OnePowerLength(w: bv32)
    requires OnePower(w)
    ensures 1 <= BitLength(w) <= 32 && Power(BitLength(w) - 1) == w
    decreases w
  {
    hide Power, OnePower;
    LengthNext(w);
    if w == 1 {
      LengthOne();
    } else {
      HalfPower(w);
      OnePowerLength(w >> 1);
      NextPower(w, BitLength(w >> 1) - 1);
    }
  }

  lemma LengthNext(w: bv32)
    requires OnePower(w)
    ensures BitLength(w) == 1 + BitLength(w >> 1) && w != 0 && (w != 1 ==> w >> 1 < w)
  {
  }

  lemma LengthOne()
    ensures BitLength(1) == 1 && Power(0) == 1
  {
    var one: bv32 := 1;
    assert one >> 1 == 0;
  }

  /** Twice a bit's power is the next one's. */
  lemma NextPower(w: bv32, b: nat)
    requires b < 32 && Power(b) == w >> 1 && w >> 1 < 0x8000_0000 && (w >> 1) << 1 == w
    ensures b < 31 && Power(b + 1) == w
  {
    LastPower();
    if b < 31 { PowerHalves(b + 1); }
  }

  lemma LastPower()
    ensures Power(31) == 0x8000_0000
  {
  }

  // ---- the mask ------------------------------------------------------------------

  /** The words that are not zero. */
  method NonZero(words: seq<bv32>) returns (nz: seq<nat>)
    ensures forall i: nat :: i in nz <==> i < |words| && words[i] != 0
    ensures forall i, j :: 0 <= i < j < |nz| ==> nz[i] < nz[j]
  {
    nz := [];
    for i := 0 to |words|
      invariant forall j: nat :: j in nz <==> j < i && words[j] != 0
      invariant forall j, k :: 0 <= j < k < |nz| ==> nz[j] < nz[k]
    {
      if words[i] != 0 {
        assert forall j :: 0 <= j < |nz| ==> nz[j] in nz;
        nz := nz + [i];
      }
    }
  }

  /** The one token the mask allows, or None when it allows none or several. */
  method SingleSetBit(words: seq<bv32>) returns (r: Option<nat>)
    ensures r.Some? <==> exists t: nat :: Allowed(words, t) && forall u: nat :: Allowed(words, u) ==> u == t
    ensures r.Some? ==> Allowed(words, r.value)
  {
    hide Power, OnePower, Allowed;
    var nz := NonZero(words);
    if |nz| != 1 {
      SeveralWords(words, nz);
      return None;
    }
    var wi := nz[0];
    assert wi in nz;
    var w := words[wi];
    LowestPower(w);
    if w & (w - 1) != 0 {
      SeveralBits(words, wi);
      return None;
    }
    OnePowerHere(w);
    var bit := BitLength(w & (0 - w)) - 1;
    r := Some(wi * 32 + bit);
    SingleBit(words, nz, wi, bit);
  }

  lemma OnePowerHere(w: bv32)
    requires w != 0 && w & (w - 1) == 0
    ensures OnePower(w) && 1 <= BitLength(w) <= 32 && Power(BitLength(w) - 1) == w
  {
    OnePowerLength(w);
  }

  lemma WordOf(wi: nat, bit: nat)
    requires bit < 32
    ensures (wi * 32 + bit) / 32 == wi && (wi * 32 + bit) % 32 == bit
  {
  }

  /** The bit of a one-bit word lies in every word that meets it. */
  lemma BitAllowed(words: seq<bv32>, wi: nat, p: bv32)
    requires wi < |words| && OnePower(p) && Meets(words[wi], p)
    ensures 1 <= BitLength(p) <= 32 && Allowed(words, wi * 32 + (BitLength(p) - 1))
    ensures (wi * 32 + (BitLength(p) - 1)) / 32 == wi
  {
    hide Power, OnePower;
    OnePowerLength(p);
    WordOf(wi, BitLength(p) - 1);
  }

  /** A word that is not zero allows a token. */
  lemma SomeBit(words: seq<bv32>, wi: nat) returns (t: nat)
    requires wi < |words| && words[wi] != 0
    ensures t / 32 == wi && Allowed(words, t)
  {
    hide Power, OnePower, Allowed, Meets;
    var low := LowBit(words[wi]);
    BitAllowed(words, wi, low);
    t := wi * 32 + (BitLength(low) - 1);
  }

  lemma SeveralWords(words: seq<bv32>, nz: seq<nat>)
    requires forall i: nat :: i in nz <==> i < |words| && words[i] != 0
    requires forall i, j :: 0 <= i < j < |nz| ==> nz[i] < nz[j]
    requires |nz| != 1
    ensures forall t: nat :: Allowed(words, t) ==> exists u: nat :: u != t && Allowed(words, u)
  {
    forall t: nat | Allowed(words, t) ensures exists u: nat :: u != t && Allowed(words, u) {
      ZeroWord(words, t);
      assert t / 32 in nz;
      var i := if nz[0] == t / 32 then 1 else 0;
      assert nz[i] in nz && nz[i] != t / 32;
      var u := SomeBit(words, nz[i]);
    }
  }

  lemma ZeroWord(words: seq<bv32>, t: nat)
    requires Allowed(words, t)
    ensures t / 32 < |words| && words[t / 32] != 0
  {
  }

  predicate TwoBits(w: bv32) {
    w & (w - 1) != 0
  }

  /** Word `w` has bit `p`. */
  predicate Meets(w: bv32, p: bv32) {
    w & p != 0
  }

  lemma SeveralBits(words: seq<bv32>, wi: nat)
    requires wi < |words| && TwoBits(words[wi])
    ensures exists t: nat, u: nat :: t != u && Allowed(words, t) && Allowed(words, u)
  {
    hide Power, OnePower, Allowed, TwoBits, Meets;
    var p, q := TwoBitsOf(words[wi]);
    BitAllowed(words, wi, p);
    BitAllowed(words, wi, q);
    LengthsDiffer(p, q);
  }

  lemma LengthsDiffer(p: bv32, q: bv32)
    requires OnePower(p) && OnePower(q) && p != q
    ensures BitLength(p) != BitLength(q)
  {
    OnePowerLength(p);
    OnePowerLength(q);
  }

  /** A word with more than one bit has a lowest bit and another one. */
  lemma TwoBitsOf(w: bv32) returns (p: bv32, q: bv32)
    requires TwoBits(w)
    ensures OnePower(p) && OnePower(q) && p != q && Meets(w, p) && Meets(w, q)
  {
    hide OnePower, Meets;
    var rest := w & (w - 1);
    p := LowBit(w);
    q := LowBit(rest);
    RestInWord(w, rest, p, q);
  }

  lemma LowBit(w: bv32) returns (p: bv32)
    requires w != 0
    ensures OnePower(p) && Meets(w, p) && p == w & (0 - w)
  {
    p := w & (0 - w);
    LowestPower(w);
  }

  lemma RestInWord(w: bv32, rest: bv32, p: bv32, q: bv32)
    requires rest == w & (w - 1) && Meets(rest, q) && p == w & (0 - w)
    ensures Meets(w, q) && p != q
  {
    hide Meets;
    Negation(w);
    Apart(w, w - 1);
    MeetsPart(w, w - 1, q);
    assert !Meets(rest, p) by { MeetsNone(rest, p); }
  }

  lemma Negation(w: bv32)
    ensures 0 - w == !(w - 1)
  {
  }

  lemma Apart(w: bv32, m: bv32)
    ensures (w & m) & (w & !m) == 0
  {
  }

  lemma MeetsPart(w: bv32, m: bv32, q: bv32)
    requires Meets(w & m, q)
    ensures Meets(w, q)
  {
  }

  lemma MeetsNone(w: bv32, p: bv32)
    requires w & p == 0
    ensures !Meets(w, p)
  {
  }

  lemma OnePowerMeetsItself(w: bv32)
    requires OnePower(w)
    ensures w & w != 0
  {
  }

  lemma SingleBit(words: seq<bv32>, nz: seq<nat>, wi: nat, bit: nat)
    requires forall i: nat :: i in nz <==> i < |words| && words[i] != 0
    requires nz == [wi] && wi < |words| && OnePower(words[wi]) && bit < 32 && words[wi] == Power(bit)
    ensures Allowed(words, wi * 32 + bit)
    ensures forall u: nat :: Allowed(words, u) ==> u == wi * 32 + bit
  {
    hide Power, OnePower, Allowed;
    OnePowerMeetsItself(words[wi]);
    OneBitAllowed(words, wi, bit);
    forall u: nat | Allowed(words, u) ensures u == wi * 32 + bit {
      ZeroWord(words, u);
      assert u / 32 in nz;
      SameBit(words, wi, bit, u);
    }
  }

  lemma OneBitAllowed(words: seq<bv32>, wi: nat, bit: nat)
    requires wi < |words| && bit < 32 && words[wi] == Power(bit) && words[wi] & words[wi] != 0
    ensures Allowed(words, wi * 32 + bit)
  {
    hide Power;
    WordOf(wi, bit);
  }

  lemma SameBit(words: seq<bv32>, wi: nat, bit: nat, u: nat)
    requires wi < |words| && bit < 32 && OnePower(words[wi]) && words[wi] == Power(bit)
    requires u / 32 == wi && Allowed(words, u)
    ensures u == wi * 32 + bit
  {
    hide Power, OnePower;
    PowerIsOne(u % 32);
    OnlyPower(words[wi], Power(u % 32));
    if u % 32 != bit { PowersDiffer(u % 32, bit); }
  }

  /** Allow token `t` as well. */
  function Set(words: seq<bv32>, t: nat): seq<bv32>
    requires t / 32 < |words|
  {
    words[t / 32 := words[t / 32] | Power(t % 32)]
  }

  lemma SetAllows(words: seq<bv32>, t: nat, u: nat)
    requires t / 32 < |words|
    ensures Allowed(Set(words, t), u) <==> u == t || Allowed(words, u)
  {
    hide Power, OnePower;
    PowerIsOne(t % 32);
    PowerIsOne(u % 32);
    if u / 32 == t / 32 {
      SetPower(words[t / 32], Power(t % 32), Power(u % 32));
      if u % 32 != t % 32 { PowersDiffer(u % 32, t % 32); }
    }
  }
}
