/**
 * The mobile app's analysis service (AnalizaTuPc/App.js): `analyzeSystem` posts the form to the
 * backend and falls back to `generateLocalAnalysis`, an integer score built from threshold and
 * keyword ladders, clamped to [0,100], plus five rounded and clamped category scores.
 */
module LocalAnalysis {
  import opened Wrappers
  import opened Text
  import opened JsNumber

  /** The form data the app analyses: every field is the text the form holds. */
  datatype AnalysisData = AnalysisData(
    cpu_model: string,
    cpu_speed_ghz: string,
    cores: string,
    ram_gb: string,
    disk_type: string,
    gpu_model: string,
    gpu_vram_gb: string)

  /** A numeric ladder: (minimum, bonus) tiers tried in source order. */
  type Ladder = seq<(real, int)>

  const SpeedLadder: Ladder := [(4.5, 15), (3.5, 10), (2.5, 5)]
  const CoresLadder: Ladder := [(16.0, 20), (12.0, 15), (8.0, 10), (6.0, 5), (4.0, 2)]
  const RamLadder: Ladder := [(32.0, 20), (16.0, 15), (8.0, 10), (4.0, 5)]
  const VramLadder: Ladder := [(12.0, 10), (8.0, 7), (6.0, 5), (4.0, 3), (2.0, 1)]

  /** The bonus of the first tier whose minimum `x` reaches, or 0 when none does. */
  function LadderBonus(ladder: Ladder, x: real): int
    decreases |ladder|
  {
    if ladder == [] then 0
    else if x >= ladder[0].0 then ladder[0].1
    else LadderBonus(ladder[1..], x)
  }

  /** A keyword ladder: (keywords, bonus) tiers; a tier matches when the text contains a keyword. */
  type KeywordLadder = seq<(seq<string>, int)>

  const CpuModelLadder: KeywordLadder :=
    [(["i9", "Ryzen 9"], 30), (["i7", "Ryzen 7"], 20), (["i5", "Ryzen 5"], 10), (["i3", "Ryzen 3"], 5)]
  const GpuLadder: KeywordLadder :=
    [(["RTX 40", "RX 7900"], 25), (["RTX 30", "RX 6000"], 20), (["RTX 20", "RX 5000"], 15),
     (["GTX 16", "RX 500"], 10), (["GTX 10", "RX 400"], 5)]

  predicate ContainsAny(s: string, keys: seq<string>)
    decreases |keys|
  {
    keys != [] && (Contains(s, keys[0]) || ContainsAny(s, keys[1..]))
  }

  /** The bonus of the first tier with a keyword in `s` (an empty `s` is falsy), or 0. */
  function KeywordBonus(ladder: KeywordLadder, s: string): int
    decreases |ladder|
  {
    if ladder == [] then 0
    else if s != "" && ContainsAny(s, ladder[0].0) then ladder[0].1
    else KeywordBonus(ladder[1..], s)
  }

  /**
   * Every bonus positive and, from each tier to the next, the threshold strictly falling and the
   * bonus not rising, as in every ladder above.
   */
  predicate Descending(ladder: Ladder)
  {
    && (forall i :: 0 <= i < |ladder| ==> ladder[i].1 > 0)
    && (forall i :: 0 <= i < |ladder| - 1 ==> ladder[i].0 > ladder[i + 1].0 && ladder[i].1 >= ladder[i + 1].1)
  }

  /** The tiers after the first of a descending ladder form a descending ladder. */
  lemma DescendingTail(ladder: Ladder)
    requires ladder != [] && Descending(ladder)
    ensures Descending(ladder[1..])
  {
    assert forall i :: 0 <= i < |ladder| - 1 ==> ladder[1..][i] == ladder[i + 1];
  }

  lemma SpeedLadderDescending()
    ensures Descending(SpeedLadder)
  {
    forall i | 0 <= i < |SpeedLadder| - 1
      ensures SpeedLadder[i].0 > SpeedLadder[i + 1].0 && SpeedLadder[i].1 >= SpeedLadder[i + 1].1
    {
    }
  }

  lemma CoresLadderDescending()
    ensures Descending(CoresLadder)
  {
    forall i | 0 <= i < |CoresLadder| - 1
      ensures CoresLadder[i].0 > CoresLadder[i + 1].0 && CoresLadder[i].1 >= CoresLadder[i + 1].1
    {
    }
  }

  lemma RamLadderDescending()
    ensures Descending(RamLadder)
  {
    forall i | 0 <= i < |RamLadder| - 1
      ensures RamLadder[i].0 > RamLadder[i + 1].0 && RamLadder[i].1 >= RamLadder[i + 1].1
    {
    }
  }

  lemma VramLadderDescending()
    ensures Descending(VramLadder)
  {
    forall i | 0 <= i < |VramLadder| - 1
      ensures VramLadder[i].0 > VramLadder[i + 1].0 && VramLadder[i].1 >= VramLadder[i + 1].1
    {
    }
  }

  /** The four numeric ladders of the source are descending. */
  lemma LaddersDescending()
    ensures Descending(SpeedLadder) && Descending(CoresLadder)
    ensures Descending(RamLadder) && Descending(VramLadder)
  {
    SpeedLadderDescending();
    CoresLadderDescending();
    RamLadderDescending();
    VramLadderDescending();
  }

  /** At most one tier pays: the first one whose minimum is reached, in source order. */
  lemma {:induction false} LadderFirstMatch(ladder: Ladder, x: real, i: nat)
    requires i < |ladder| && x >= ladder[i].0
    requires forall j :: 0 <= j < i ==> x < ladder[j].0
    ensures LadderBonus(ladder, x) == ladder[i].1
    decreases i
  {
    if i > 0 {
      LadderFirstMatch(ladder[1..], x, i - 1);
    }
  }

  /** No bonus when no minimum is reached. */
  lemma {:induction false} LadderNoMatch(ladder: Ladder, x: real)
    requires forall j :: 0 <= j < |ladder| ==> x < ladder[j].0
    ensures LadderBonus(ladder, x) == 0
    decreases |ladder|
  {
    if ladder != [] {
      LadderNoMatch(ladder[1..], x);
    }
  }
  /**
   * The ladder read as a whole: no tier reached gives 0; otherwise the bonus is that of a tier
   * `x` reaches with every earlier tier out of reach.
   */
  lemma {:induction false} LadderBonusSpec(ladder: Ladder, x: real)
    ensures (forall j :: 0 <= j < |ladder| ==> x < ladder[j].0) ==> LadderBonus(ladder, x) == 0
    ensures (exists i :: 0 <= i < |ladder| && x >= ladder[i].0) ==>
      exists i :: 0 <= i < |ladder| && x >= ladder[i].0 && (forall j :: 0 <= j < i ==> x < ladder[j].0)
                  && LadderBonus(ladder, x) == ladder[i].1
    decreases |ladder|
  {
    if ladder != [] && x < ladder[0].0 {
      var tail := ladder[1..];
      LadderBonusSpec(tail, x);
      if exists i :: 0 <= i < |ladder| && x >= ladder[i].0 {
        var i :| 0 <= i < |ladder| && x >= ladder[i].0;
        assert tail[i - 1] == ladder[i];
        var k :| 0 <= k < |tail| && x >= tail[k].0 && (forall j :: 0 <= j < k ==> x < tail[j].0)
                 && LadderBonus(tail, x) == tail[k].1;
        assert forall j :: 0 <= j < k + 1 ==> x < ladder[j].0 by {
          forall j | 0 <= j < k + 1
            ensures x < ladder[j].0
          {
            if j > 0 { assert ladder[j] == tail[j - 1]; }
          }
        }
        assert ladder[k + 1] == tail[k];
      }
    }
  }


  /** A descending ladder pays between 0 and its top bonus. */
  lemma {:induction false} LadderBonusRange(ladder: Ladder, x: real)
    requires Descending(ladder)
    ensures 0 <= LadderBonus(ladder, x)
    ensures ladder != [] ==> LadderBonus(ladder, x) <= ladder[0].1
    decreases |ladder|
  {
    if ladder != [] && x < ladder[0].0 {
      DescendingTail(ladder);
      LadderBonusRange(ladder[1..], x);
      if |ladder| > 1 {
        assert ladder[1..][0] == ladder[1];
      }
    }
  }

  /** A better figure never earns a smaller bonus on a descending ladder. */
  lemma {:induction false} LadderMonotone(ladder: Ladder, x: real, y: real)
    requires Descending(ladder) && x <= y
    ensures LadderBonus(ladder, x) <= LadderBonus(ladder, y)
    decreases |ladder|
  {
    if ladder != [] {
      if y >= ladder[0].0 {
        LadderBonusRange(ladder, x);
      } else {
        DescendingTail(ladder);
        LadderMonotone(ladder[1..], x, y);
      }
    }
  }

  /** Both keywords of a tier are tried: the tier matches when either occurs. */
  lemma ContainsAnyPair(s: string, k1: string, k2: string)
    ensures ContainsAny(s, [k1, k2]) <==> Contains(s, k1) || Contains(s, k2)
  {
    var tail := [k2];
    assert [k1, k2][1..] == tail;
    assert tail[1..] == [];
    assert ContainsAny(s, tail) <==> Contains(s, k2);
  }

  /** At most one keyword tier pays: the first one with a keyword in the text. */
  lemma {:induction false} KeywordFirstMatch(ladder: KeywordLadder, s: string, i: nat)
    requires i < |ladder| && s != "" && ContainsAny(s, ladder[i].0)
    requires forall j :: 0 <= j < i ==> !ContainsAny(s, ladder[j].0)
    ensures KeywordBonus(ladder, s) == ladder[i].1
    decreases i
  {
    if i > 0 {
      KeywordFirstMatch(ladder[1..], s, i - 1);
    }
  }

  /** No keyword bonus for an empty text or one with none of the keywords. */
  lemma {:induction false} KeywordNoMatch(ladder: KeywordLadder, s: string)
    requires s == "" || forall j :: 0 <= j < |ladder| ==> !ContainsAny(s, ladder[j].0)
    ensures KeywordBonus(ladder, s) == 0
    decreases |ladder|
  {
    if ladder != [] {
      KeywordNoMatch(ladder[1..], s);
    }
  }
  /**
   * The keyword ladder read as a whole: an empty text or no tier matched gives 0; otherwise the
   * bonus is that of a matched tier with no earlier tier matched.
   */
  lemma {:induction false} KeywordBonusSpec(ladder: KeywordLadder, s: string)
    ensures (s == "" || forall j :: 0 <= j < |ladder| ==> !ContainsAny(s, ladder[j].0)) ==> KeywordBonus(ladder, s) == 0
    ensures s != "" && (exists i :: 0 <= i < |ladder| && ContainsAny(s, ladder[i].0)) ==>
      exists i :: 0 <= i < |ladder| && ContainsAny(s, ladder[i].0)
                  && (forall j :: 0 <= j < i ==> !ContainsAny(s, ladder[j].0))
                  && KeywordBonus(ladder, s) == ladder[i].1
    decreases |ladder|
  {
    if s == "" || forall j :: 0 <= j < |ladder| ==> !ContainsAny(s, ladder[j].0) {
      KeywordNoMatch(ladder, s);
    } else if !ContainsAny(s, ladder[0].0) {
      var tail := ladder[1..];
      KeywordBonusSpec(tail, s);
      var i :| 0 <= i < |ladder| && ContainsAny(s, ladder[i].0);
      assert tail[i - 1] == ladder[i];
      var k :| 0 <= k < |tail| && ContainsAny(s, tail[k].0) && (forall j :: 0 <= j < k ==> !ContainsAny(s, tail[j].0))
               && KeywordBonus(tail, s) == tail[k].1;
      assert forall j :: 0 <= j < k + 1 ==> !ContainsAny(s, ladder[j].0) by {
        forall j | 0 <= j < k + 1
          ensures !ContainsAny(s, ladder[j].0)
        {
          if j > 0 { assert ladder[j] == tail[j - 1]; }
        }
      }
      assert ladder[k + 1] == tail[k];
    }
  }


  /** A keyword ladder whose tiers pay between 1 and `top` pays between 0 and `top`. */
  lemma {:induction false} KeywordBonusRange(ladder: KeywordLadder, s: string, top: int)
    requires 0 <= top
    requires forall i :: 0 <= i < |ladder| ==> 0 < ladder[i].1 <= top
    ensures 0 <= KeywordBonus(ladder, s) <= top
    decreases |ladder|
  {
    if ladder != [] {
      assert forall i :: 0 <= i < |ladder[1..]| ==> ladder[1..][i] == ladder[i + 1];
      KeywordBonusRange(ladder[1..], s, top);
    }
  }

  /** The speed ladder is the source's if-chain on `cpuSpeed`. */
  lemma SpeedTiers(x: real)
    ensures LadderBonus(SpeedLadder, x) == if x >= 4.5 then 15 else if x >= 3.5 then 10 else if x >= 2.5 then 5 else 0
  {
    if x >= 4.5 { LadderFirstMatch(SpeedLadder, x, 0); }
    else if x >= 3.5 { LadderFirstMatch(SpeedLadder, x, 1); }
    else if x >= 2.5 { LadderFirstMatch(SpeedLadder, x, 2); }
    else { LadderNoMatch(SpeedLadder, x); }
  }

  lemma CoresTiers(x: real)
    ensures LadderBonus(CoresLadder, x) ==
      if x >= 16.0 then 20 else if x >= 12.0 then 15 else if x >= 8.0 then 10 else if x >= 6.0 then 5
      else if x >= 4.0 then 2 else 0
  {
    if x >= 16.0 { LadderFirstMatch(CoresLadder, x, 0); }
    else if x >= 12.0 { LadderFirstMatch(CoresLadder, x, 1); }
    else if x >= 8.0 { LadderFirstMatch(CoresLadder, x, 2); }
    else if x >= 6.0 { LadderFirstMatch(CoresLadder, x, 3); }
    else if x >= 4.0 { LadderFirstMatch(CoresLadder, x, 4); }
    else { LadderNoMatch(CoresLadder, x); }
  }

  lemma RamTiers(x: real)
    ensures LadderBonus(RamLadder, x) ==
      if x >= 32.0 then 20 else if x >= 16.0 then 15 else if x >= 8.0 then 10 else if x >= 4.0 then 5 else 0
  {
    if x >= 32.0 { LadderFirstMatch(RamLadder, x, 0); }
    else if x >= 16.0 { LadderFirstMatch(RamLadder, x, 1); }
    else if x >= 8.0 { LadderFirstMatch(RamLadder, x, 2); }
    else if x >= 4.0 { LadderFirstMatch(RamLadder, x, 3); }
    else { LadderNoMatch(RamLadder, x); }
  }

  lemma VramTiers(x: real)
    ensures LadderBonus(VramLadder, x) ==
      if x >= 12.0 then 10 else if x >= 8.0 then 7 else if x >= 6.0 then 5 else if x >= 4.0 then 3
      else if x >= 2.0 then 1 else 0
  {
    if x >= 12.0 { LadderFirstMatch(VramLadder, x, 0); }
    else if x >= 8.0 { LadderFirstMatch(VramLadder, x, 1); }
    else if x >= 6.0 { LadderFirstMatch(VramLadder, x, 2); }
    else if x >= 4.0 { LadderFirstMatch(VramLadder, x, 3); }
    else if x >= 2.0 { LadderFirstMatch(VramLadder, x, 4); }
    else { LadderNoMatch(VramLadder, x); }
  }

  /** The processor-model ladder is the source's if-chain of `includes` tests. */
  lemma CpuModelTiers(s: string)
    ensures KeywordBonus(CpuModelLadder, s) ==
      if s != "" && (Contains(s, "i9") || Contains(s, "Ryzen 9")) then 30
      else if s != "" && (Contains(s, "i7") || Contains(s, "Ryzen 7")) then 20
      else if s != "" && (Contains(s, "i5") || Contains(s, "Ryzen 5")) then 10
      else if s != "" && (Contains(s, "i3") || Contains(s, "Ryzen 3")) then 5
      else 0
  {
    ContainsAnyPair(s, "i9", "Ryzen 9");
    ContainsAnyPair(s, "i7", "Ryzen 7");
    ContainsAnyPair(s, "i5", "Ryzen 5");
    ContainsAnyPair(s, "i3", "Ryzen 3");
    if s == "" { KeywordNoMatch(CpuModelLadder, s); }
    else if Contains(s, "i9") || Contains(s, "Ryzen 9") { KeywordFirstMatch(CpuModelLadder, s, 0); }
    else if Contains(s, "i7") || Contains(s, "Ryzen 7") { KeywordFirstMatch(CpuModelLadder, s, 1); }
    else if Contains(s, "i5") || Contains(s, "Ryzen 5") { KeywordFirstMatch(CpuModelLadder, s, 2); }
    else if Contains(s, "i3") || Contains(s, "Ryzen 3") { KeywordFirstMatch(CpuModelLadder, s, 3); }
    else { KeywordNoMatch(CpuModelLadder, s); }
  }

  /** The graphics ladder is the source's if-chain of `includes` tests. */
  lemma GpuTiers(s: string)
    ensures KeywordBonus(GpuLadder, s) ==
      if s != "" && (Contains(s, "RTX 40") || Contains(s, "RX 7900")) then 25
      else if s != "" && (Contains(s, "RTX 30") || Contains(s, "RX 6000")) then 20
      else if s != "" && (Contains(s, "RTX 20") || Contains(s, "RX 5000")) then 15
      else if s != "" && (Contains(s, "GTX 16") || Contains(s, "RX 500")) then 10
      else if s != "" && (Contains(s, "GTX 10") || Contains(s, "RX 400")) then 5
      else 0
  {
    if s == "" {
      KeywordNoMatch(GpuLadder, s);
      return;
    }
    assert GpuLadder[0].0 == ["RTX 40", "RX 7900"] && GpuLadder[1].0 == ["RTX 30", "RX 6000"];
    assert GpuLadder[2].0 == ["RTX 20", "RX 5000"] && GpuLadder[3].0 == ["GTX 16", "RX 500"];
    assert GpuLadder[4].0 == ["GTX 10", "RX 400"];
    ContainsAnyPair(s, "RTX 40", "RX 7900");
    if Contains(s, "RTX 40") || Contains(s, "RX 7900") { KeywordFirstMatch(GpuLadder, s, 0); return; }
    ContainsAnyPair(s, "RTX 30", "RX 6000");
    if Contains(s, "RTX 30") || Contains(s, "RX 6000") { KeywordFirstMatch(GpuLadder, s, 1); return; }
    ContainsAnyPair(s, "RTX 20", "RX 5000");
    if Contains(s, "RTX 20") || Contains(s, "RX 5000") { KeywordFirstMatch(GpuLadder, s, 2); return; }
    ContainsAnyPair(s, "GTX 16", "RX 500");
    if Contains(s, "GTX 16") || Contains(s, "RX 500") { KeywordFirstMatch(GpuLadder, s, 3); return; }
    ContainsAnyPair(s, "GTX 10", "RX 400");
    if Contains(s, "GTX 10") || Contains(s, "RX 400") { KeywordFirstMatch(GpuLadder, s, 4); return; }
    KeywordNoMatch(GpuLadder, s);
  }

  /** The storage bonus: exact, case-sensitive tags. */
  function DiskBonus(disk_type: string): (b: int)
    ensures b == 15 <==> disk_type == "NVMe"
    ensures b == 10 <==> disk_type == "SSD"
    ensures b == 0 <==> disk_type != "NVMe" && disk_type != "SSD"
  {
    if disk_type == "NVMe" then 15 else if disk_type == "SSD" then 10 else 0
  }

  function Clamp(lo: int, x: int, hi: int): int
    requires lo <= hi
  {
    if x < lo then lo else if x > hi then hi else x
  }

  /** The figures the ladders read, once parsed; `parse(..) || 0` turns NaN into 0. */
  datatype Figures = Figures(speed: real, cores: int, ram: int, vram: int)

  function Parsed(data: AnalysisData): Figures
  {
    Figures(RealOr(ParseFloat(data.cpu_speed_ghz), 0.0), IntOr(ParseInt(data.cores), 0),
            IntOr(ParseInt(data.ram_gb), 0), IntOr(ParseInt(data.gpu_vram_gb), 0))
  }

  /** The unclamped sum: 50 plus one bonus from each ladder. */
  function RawScore(data: AnalysisData, f: Figures): int
  {
    50 + KeywordBonus(CpuModelLadder, data.cpu_model)
       + LadderBonus(SpeedLadder, f.speed)
       + LadderBonus(CoresLadder, f.cores as real)
       + LadderBonus(RamLadder, f.ram as real)
       + DiskBonus(data.disk_type)
       + KeywordBonus(GpuLadder, data.gpu_model)
       + LadderBonus(VramLadder, f.vram as real)
  }

  /** Each numeric ladder pays between 0 and its top bonus: 15, 20, 20 and 10. */
  lemma NumericBonusRange(f: Figures)
    ensures 0 <= LadderBonus(SpeedLadder, f.speed) <= 15
    ensures 0 <= LadderBonus(CoresLadder, f.cores as real) <= 20
    ensures 0 <= LadderBonus(RamLadder, f.ram as real) <= 20
    ensures 0 <= LadderBonus(VramLadder, f.vram as real) <= 10
  {
    LaddersDescending();
    LadderBonusRange(SpeedLadder, f.speed);
    LadderBonusRange(CoresLadder, f.cores as real);
    LadderBonusRange(RamLadder, f.ram as real);
    LadderBonusRange(VramLadder, f.vram as real);
  }

  /** Every increment is non-negative and at most the top tier, so the sum lies in [50,185]. */
  lemma RawScoreBounds(data: AnalysisData, f: Figures)
    ensures 50 <= RawScore(data, f) <= 185
  {
    NumericBonusRange(f);
    KeywordBonusRange(CpuModelLadder, data.cpu_model, 30);
    KeywordBonusRange(GpuLadder, data.gpu_model, 25);
  }

  /** The base score: the sum clamped to [0,100], which leaves it in [50,100]. */
  function BaseScore(data: AnalysisData): (b: int)
    ensures 50 <= b <= 100
  {
    var f := Parsed(data);
    RawScoreBounds(data, f);
    Clamp(0, RawScore(data, f), 100)
  }

  /** A reading of 0 is below the lowest tier of every numeric ladder. */
  lemma ZeroEarnsNothing()
    ensures LadderBonus(SpeedLadder, 0.0) == 0 && LadderBonus(CoresLadder, 0.0) == 0
    ensures LadderBonus(RamLadder, 0.0) == 0 && LadderBonus(VramLadder, 0.0) == 0
  {
    LadderNoMatch(SpeedLadder, 0.0);
    LadderNoMatch(CoresLadder, 0.0);
    LadderNoMatch(RamLadder, 0.0);
    LadderNoMatch(VramLadder, 0.0);
  }

  /** An unparsable speed is read as 0 and earns no bonus. */
  lemma UnparsableSpeedEarnsNothing(s: string)
    requires ParseFloat(s) == None
    ensures RealOr(ParseFloat(s), 0.0) == 0.0
    ensures LadderBonus(SpeedLadder, RealOr(ParseFloat(s), 0.0)) == 0
  {
    ZeroEarnsNothing();
  }

  /** An unparsable core count, RAM or VRAM is read as 0 and earns no bonus on its ladder. */
  lemma UnparsableCountEarnsNothing(s: string)
    requires ParseInt(s) == None
    ensures IntOr(ParseInt(s), 0) == 0
    ensures LadderBonus(CoresLadder, IntOr(ParseInt(s), 0) as real) == 0
    ensures LadderBonus(RamLadder, IntOr(ParseInt(s), 0) as real) == 0
    ensures LadderBonus(VramLadder, IntOr(ParseInt(s), 0) as real) == 0
  {
    ZeroEarnsNothing();
  }

  /** `calculateCategoryScore`: round(base * multiplier + bonus), clamped to [0,100]. */
  function CategoryScore(base: int, multiplier: real, bonus: int): (r: int)
    ensures 0 <= r <= 100
    ensures r == 0 <==> base as real * multiplier + bonus as real < 0.5
    ensures r == 100 <==> base as real * multiplier + bonus as real >= 99.5
    ensures 0 < r < 100 ==> r as real - 0.5 <= base as real * multiplier + bonus as real < r as real + 0.5
  {
    Clamp(0, JsRound(base as real * multiplier + bonus as real), 100)
  }

  /** A larger base never lowers a category score (the multipliers are positive). */
  lemma CategoryScoreMonotone(b1: int, b2: int, multiplier: real, bonus: int)
    requires b1 <= b2 && multiplier > 0.0
    ensures CategoryScore(b1, multiplier, bonus) <= CategoryScore(b2, multiplier, bonus)
  {
    var x := b1 as real * multiplier + bonus as real;
    var y := b2 as real * multiplier + bonus as real;
    assert x <= y by {
      assert y - x == (b2 - b1) as real * multiplier;
    }
    assert JsRound(x) <= JsRound(y);
  }

  /** The bonuses of the five categories, in the order of the object literal. */
  function GamingBonus(gpu: string): int
  {
    if gpu != "" && Contains(gpu, "RTX") then 10 else if gpu != "" && Contains(gpu, "RX") then 8 else 0
  }

  function VideoBonus(f: Figures): int
  {
    if f.ram >= 16 then 15 else if f.ram >= 8 then 8 else 0
  }

  function OfficeBonus(f: Figures): int
  {
    if f.speed >= 3.0 then 10 else 5
  }

  function VirtualizationBonus(f: Figures): int
  {
    if f.cores >= 8 then 12 else if f.cores >= 4 then 6 else 0
  }

  function MlBonus(gpu: string): int
  {
    if gpu != "" && (Contains(gpu, "RTX 30") || Contains(gpu, "RTX 40")) then 15 else 0
  }

  /** The five category entries with their multipliers. */
  function CategoryScores(gpu: string, f: Figures, base: int): (r: seq<(string, int)>)
    ensures |r| == 5
    ensures r[0].0 == "Gaming" && r[1].0 == "Edición Video" && r[2].0 == "Ofimática"
            && r[3].0 == "Virtualización" && r[4].0 == "ML Ligero"
    ensures forall i :: 0 <= i < |r| ==> 0 <= r[i].1 <= 100
  {
    [("Gaming", CategoryScore(base, 1.0, GamingBonus(gpu))),
     ("Edición Video", CategoryScore(base, 0.9, VideoBonus(f))),
     ("Ofimática", CategoryScore(base, 1.2, OfficeBonus(f))),
     ("Virtualización", CategoryScore(base, 0.95, VirtualizationBonus(f))),
     ("ML Ligero", CategoryScore(base, 0.85, MlBonus(gpu)))]
  }

  /** With a base of at least 50 every category scores at least 43 (ML Ligero: round(42.5) = 43). */
  lemma CategoryScoresFloor(gpu: string, f: Figures, base: int)
    requires 50 <= base <= 100
    ensures forall i :: 0 <= i < 5 ==> 43 <= CategoryScores(gpu, f, base)[i].1 <= 100
  {
    CategoryScoreMonotone(50, base, 1.0, GamingBonus(gpu));
    CategoryScoreMonotone(50, base, 0.9, VideoBonus(f));
    CategoryScoreMonotone(50, base, 1.2, OfficeBonus(f));
    CategoryScoreMonotone(50, base, 0.95, VirtualizationBonus(f));
    CategoryScoreMonotone(50, base, 0.85, MlBonus(gpu));
  }

  /** The profile bands of the fallback result: 80, 60 and 40. */
  function MainProfile(base: int): (p: string)
    ensures p == "Gaming/Profesional" <==> base >= 80
    ensures p == "Multimedia" <==> 60 <= base < 80
    ensures p == "Oficina" <==> 40 <= base < 60
    ensures p == "Básico" <==> base < 40
  {
    if base >= 80 then "Gaming/Profesional"
    else if base >= 60 then "Multimedia"
    else if base >= 40 then "Oficina"
    else "Básico"
  }

  /** The fallback result, with the same keys as the backend's. */
  datatype LocalResult = LocalResult(main_profile: string, main_score: int, scores: seq<(string, int)>)

  datatype LocalAnalysisReply = LocalAnalysisReply(result: LocalResult, is_guest: bool)

  /** The processor-model step of `generateLocalAnalysis`: the first tier whose keyword occurs. */
  method AddCpuModelBonus(score: int, cpu: string) returns (s: int)
    ensures s == score + KeywordBonus(CpuModelLadder, cpu)
  {
    s := score;
    if cpu != "" && (Contains(cpu, "i9") || Contains(cpu, "Ryzen 9")) {
      s := s + 30;
    } else if cpu != "" && (Contains(cpu, "i7") || Contains(cpu, "Ryzen 7")) {
      s := s + 20;
    } else if cpu != "" && (Contains(cpu, "i5") || Contains(cpu, "Ryzen 5")) {
      s := s + 10;
    } else if cpu != "" && (Contains(cpu, "i3") || Contains(cpu, "Ryzen 3")) {
      s := s + 5;
    }
    CpuModelTiers(cpu);
  }

  /** The clock-speed step: 4.5, 3.5 and 2.5 GHz. */
  method AddSpeedBonus(score: int, cpuSpeed: real) returns (s: int)
    ensures s == score + LadderBonus(SpeedLadder, cpuSpeed)
  {
    s := score;
    if cpuSpeed >= 4.5 {
      s := s + 15;
    } else if cpuSpeed >= 3.5 {
      s := s + 10;
    } else if cpuSpeed >= 2.5 {
      s := s + 5;
    }
    SpeedTiers(cpuSpeed);
  }

  /** The core-count step: 16, 12, 8, 6 and 4 cores. */
  method AddCoresBonus(score: int, cores: int) returns (s: int)
    ensures s == score + LadderBonus(CoresLadder, cores as real)
  {
    s := score;
    if cores >= 16 {
      s := s + 20;
    } else if cores >= 12 {
      s := s + 15;
    } else if cores >= 8 {
      s := s + 10;
    } else if cores >= 6 {
      s := s + 5;
    } else if cores >= 4 {
      s := s + 2;
    }
    CoresTiers(cores as real);
  }

  /** The memory step: 32, 16, 8 and 4 GB. */
  method AddRamBonus(score: int, ram: int) returns (s: int)
    ensures s == score + LadderBonus(RamLadder, ram as real)
  {
    s := score;
    if ram >= 32 {
      s := s + 20;
    } else if ram >= 16 {
      s := s + 15;
    } else if ram >= 8 {
      s := s + 10;
    } else if ram >= 4 {
      s := s + 5;
    }
    RamTiers(ram as real);
  }

  /** The storage step: exact 'NVMe' and 'SSD'; 'HDD' and anything else add nothing. */
  method AddDiskBonus(score: int, diskType: string) returns (s: int)
    ensures s == score + DiskBonus(diskType)
  {
    s := score;
    if diskType == "NVMe" {
      s := s + 15;
    } else if diskType == "SSD" {
      s := s + 10;
    } else if diskType == "HDD" {
      s := s + 0;
    }
  }

  /** The graphics-model step: the first tier whose keyword occurs. */
  method AddGpuBonus(score: int, gpu: string) returns (s: int)
    ensures s == score + KeywordBonus(GpuLadder, gpu)
  {
    s := score;
    if gpu != "" && (Contains(gpu, "RTX 40") || Contains(gpu, "RX 7900")) {
      s := s + 25;
    } else if gpu != "" && (Contains(gpu, "RTX 30") || Contains(gpu, "RX 6000")) {
      s := s + 20;
    } else if gpu != "" && (Contains(gpu, "RTX 20") || Contains(gpu, "RX 5000")) {
      s := s + 15;
    } else if gpu != "" && (Contains(gpu, "GTX 16") || Contains(gpu, "RX 500")) {
      s := s + 10;
    } else if gpu != "" && (Contains(gpu, "GTX 10") || Contains(gpu, "RX 400")) {
      s := s + 5;
    }
    GpuTiers(gpu);
  }

  /** The video-memory step: 12, 8, 6, 4 and 2 GB. */
  method AddVramBonus(score: int, vram: int) returns (s: int)
    ensures s == score + LadderBonus(VramLadder, vram as real)
  {
    s := score;
    if vram >= 12 {
      s := s + 10;
    } else if vram >= 8 {
      s := s + 7;
    } else if vram >= 6 {
      s := s + 5;
    } else if vram >= 4 {
      s := s + 3;
    } else if vram >= 2 {
      s := s + 1;
    }
    VramTiers(vram as real);
  }

  /**
   * `generateLocalAnalysis` with the token of the enclosing `analyzeSystem` call in scope: the
   * base score is built step by step through the ladders and clamped; `main_score` is that base
   * score, the profile follows the 80/60/40 bands (never 'Básico', since the base is at least
   * 50), and `is_guest` is the absence of a token.
   */
  method GenerateLocalAnalysis(data: AnalysisData, token: Option<string>) returns (r: LocalAnalysisReply)
    ensures r.result.main_score == BaseScore(data)
    ensures 50 <= r.result.main_score <= 100
    ensures r.result.main_profile == MainProfile(r.result.main_score) && r.result.main_profile != "Básico"
    ensures r.result.scores == CategoryScores(data.gpu_model, Parsed(data), r.result.main_score)
    ensures r.is_guest == !Truthy(token)
  {
    var f := Parsed(data);
    var baseScore := 50;
    baseScore := AddCpuModelBonus(baseScore, data.cpu_model);
    baseScore := AddSpeedBonus(baseScore, f.speed);
    baseScore := AddCoresBonus(baseScore, f.cores);
    baseScore := AddRamBonus(baseScore, f.ram);
    baseScore := AddDiskBonus(baseScore, data.disk_type);
    baseScore := AddGpuBonus(baseScore, data.gpu_model);
    baseScore := AddVramBonus(baseScore, f.vram);
    assert baseScore == RawScore(data, f);
    baseScore := if baseScore < 0 then 0 else if baseScore > 100 then 100 else baseScore;

    var scores := CategoryScores(data.gpu_model, f, baseScore);
    r := LocalAnalysisReply(LocalResult(MainProfile(baseScore), baseScore, scores), !Truthy(token));
  }

  /** What the HTTP exchange with the backend produced. */
  datatype HttpOutcome =
    | Response(ok: bool, json: Option<string>)   // json: None when the body is not JSON
    | NetworkFailure                             // fetch itself threw

  /** What `analyzeSystem` resolves to: the backend's JSON or the local fallback. */
  datatype AnalysisReply = FromServer(body: string) | Local(reply: LocalAnalysisReply)

  /** The exceptions the fallback path can raise. */
  datatype JsError =
    | ReferenceError(name: string)   // an undeclared identifier was read
    | FetchFailed                    // the request itself failed
    | InvalidJson                    // `response.json()` on a body that is not JSON

  /** The request headers: JSON content type, plus a bearer token when one is present. */
  function RequestHeaders(token: Option<string>): (h: seq<(string, string)>)
    ensures (exists i :: 0 <= i < |h| && h[i].0 == "Authorization") <==> Truthy(token)
    ensures |h| >= 1 && h[0] == ("Content-Type", "application/json")
    ensures Truthy(token) ==> ("Authorization", "Bearer " + token.value) in h
  {
    var base := [("Content-Type", "application/json")];
    if Truthy(token) then
      var h := base + [("Authorization", "Bearer " + token.value)];
      assert h[1].0 == "Authorization";
      h
    else base
  }

  /** Whether the backend's answer is used: an ok response whose body parses as JSON. */
  predicate ServerAnswered(http: HttpOutcome)
  {
    http.Response? && http.ok && http.json.Some?
  }

  /**
   * `analyzeSystem` with the fallback evidently intended: the backend's JSON when it answered,
   * otherwise the local analysis, whose `is_guest` reflects the token; it never fails.
   */
  method AnalyzeSystem(data: AnalysisData, token: Option<string>, http: HttpOutcome)
    returns (reply: AnalysisReply, headers: seq<(string, string)>)
    ensures headers == RequestHeaders(token)
    ensures ServerAnswered(http) ==> reply == FromServer(http.json.value)
    ensures !ServerAnswered(http) ==> reply.Local? && reply.reply.result.main_score == BaseScore(data)
                                      && reply.reply.is_guest == !Truthy(token)
    ensures !ServerAnswered(http) ==> reply.Local?
                                      && reply.reply.result.main_profile == MainProfile(BaseScore(data))
                                      && reply.reply.result.scores == CategoryScores(data.gpu_model, Parsed(data), BaseScore(data))
  {
    headers := RequestHeaders(token);
    if ServerAnswered(http) {
      reply := FromServer(http.json.value);
    } else {
      var local := GenerateLocalAnalysis(data, token);
      reply := Local(local);
    }
  }

  /**
   * `generateLocalAnalysis` as written: its body reads `token`, which is a parameter of
   * `analyzeSystem` and not in scope here, so building the result always throws.
   */
  method GenerateLocalAnalysisAsWritten(data: AnalysisData) returns (r: Result<LocalAnalysisReply, JsError>)
    ensures r == Err(ReferenceError("token"))
  {
    var base := BaseScore(data);
    var scores := CategoryScores(data.gpu_model, Parsed(data), base);
    r := Err(ReferenceError("token"));
  }

  /**
   * `analyzeSystem` as written: the fallback is called inside `try` (not-ok response) and again
   * in `catch`, and both calls throw, so every path that needs the fallback rejects.
   */
  method AnalyzeSystemAsWritten(data: AnalysisData, token: Option<string>, http: HttpOutcome)
    returns (r: Result<AnalysisReply, JsError>)
    ensures ServerAnswered(http) ==> r == Ok(FromServer(http.json.value))
    ensures !ServerAnswered(http) ==> r == Err(ReferenceError("token"))
  {
    if ServerAnswered(http) {
      r := Ok(FromServer(http.json.value));
    } else {
      var outcome: Result<LocalAnalysisReply, JsError>;
      if http.Response? && !http.ok {
        outcome := GenerateLocalAnalysisAsWritten(data);   // inside `try`
      } else {
        outcome := Err(if http.NetworkFailure? then FetchFailed else InvalidJson);
      }
      if outcome.Err? {
        outcome := GenerateLocalAnalysisAsWritten(data);   // inside `catch`
      }
      r := AsReply(outcome);
    }
  }

  /** A settled fallback as the promise `analyzeSystem` returns. */
  function AsReply(outcome: Result<LocalAnalysisReply, JsError>): (r: Result<AnalysisReply, JsError>)
    ensures r.Ok? <==> outcome.Ok?
    ensures outcome.Err? ==> r.error == outcome.error
  {
    match outcome
    case Ok(reply) => Ok(Local(reply))
    case Err(e) => Err(e)
  }
}
