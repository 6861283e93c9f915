/**
 * The backend scoring engine, `score_system` in backend/main.py: a storage-tier scalar, three
 * fixed linear profiles over the raw (unclamped) hardware figures, the winner chosen by a stable
 * descending sort, and the winner's value rounded to one decimal.
 */
module Scoring {
  import opened Text

  /** The hardware record posted to /api/analyze (`SysInfo`). Nothing is validated or clamped. */
  datatype SysInfo = SysInfo(
    cpu_model: string,
    cpu_speed_ghz: real,
    cores: int,
    ram_gb: real,
    disk_type: string,
    gpu_model: string,
    gpu_vram_gb: real)

  /** The three profiles of the score map, in the order the dict literal declares them. */
  datatype Profile = Ofimatica | Gaming | Virtualizacion

  const DeclaredOrder: seq<Profile> := [Ofimatica, Gaming, Virtualizacion]

  /** Position of a profile in the dict literal; earlier wins an exact tie. */
  function DeclaredIndex(p: Profile): (i: nat)
    ensures i < |DeclaredOrder| && DeclaredOrder[i] == p
  {
    match p
    case Ofimatica => 0
    case Gaming => 1
    case Virtualizacion => 2
  }

  /** The key under which a profile appears in the returned `scores` map. */
  function ProfileName(p: Profile): string
  {
    match p
    case Ofimatica => "Ofimática"
    case Gaming => "Gaming"
    case Virtualizacion => "Virtualización"
  }

  /** Distinct profiles have distinct keys, so the map has exactly three entries. */
  lemma ProfileNamesDistinct(p: Profile, q: Profile)
    requires p != q
    ensures ProfileName(p) != ProfileName(q)
  {
    match p
    case Ofimatica => assert ProfileName(p)[0] == 'O';
    case Gaming => assert ProfileName(p)[0] == 'G';
    case Virtualizacion => assert ProfileName(p)[0] == 'V';
  }

  /**
   * The storage tier: 1.0 when the lower-cased tag is exactly "nvme", otherwise 0.6 when it
   * contains "ssd" anywhere, otherwise 0.2.
   */
  function DiskTier(disk_type: string): (t: real)
    ensures t == 1.0 || t == 0.6 || t == 0.2
    ensures t == 1.0 <==> ToLower(disk_type) == "nvme"
    ensures t == 0.6 <==> ToLower(disk_type) != "nvme" && exists i :: OccursAt(ToLower(disk_type), "ssd", i)
  {
    var d := ToLower(disk_type);
    ContainsIffOccurs(d, "ssd");
    if d == "nvme" then 1.0 else if Contains(d, "ssd") then 0.6 else 0.2
  }

  /** The tier ignores ASCII case: a tag and its lower-cased form score alike. */
  lemma DiskTierCaseInsensitive(disk_type: string)
    ensures DiskTier(disk_type) == DiskTier(ToLower(disk_type))
  {
    ToLowerIdempotent(disk_type);
  }

  /** The tag test is an exact equality: a combined tag such as "NVMe SSD" only reaches the SSD tier. */
  lemma CombinedTagIsSsdTier()
    ensures DiskTier("NVMe SSD") == 0.6
  {
    var d := ToLower("NVMe SSD");
    assert d == "nvme ssd";
    assert OccursAt(d, "ssd", 5);
  }

  /** One profile's weights for the cpu, gpu, ram and disk figures. */
  datatype Weights = Weights(cpu: real, gpu: real, ram: real, disk: real)

  function WeightsOf(p: Profile): Weights
  {
    match p
    case Ofimatica => Weights(0.4, 0.0, 0.4, 0.2)
    case Gaming => Weights(0.25, 0.4, 0.2, 0.15)
    case Virtualizacion => Weights(0.45, 0.0, 0.45, 0.1)
  }

  /** Each profile's weights are non-negative and sum to 1.0. */
  lemma WeightsSumToOne(p: Profile)
    ensures var w := WeightsOf(p); w.cpu + w.gpu + w.ram + w.disk == 1.0
    ensures var w := WeightsOf(p); w.cpu >= 0.0 && w.gpu >= 0.0 && w.ram >= 0.0 && w.disk >= 0.0
  {
  }

  /** The cpu figure: clock speed times core count, with no ceiling. */
  function CpuFigure(info: SysInfo): real
  {
    info.cpu_speed_ghz * info.cores as real
  }

  /** A profile's value: the weighted sum of the raw cpu, gpu and ram figures and the disk tier. */
  function ProfileValue(p: Profile, info: SysInfo): real
  {
    var w := WeightsOf(p);
    w.cpu * CpuFigure(info) + w.gpu * info.gpu_vram_gb + w.ram * info.ram_gb
      + w.disk * DiskTier(info.disk_type)
  }

  /** A (profile, value) pair of the score map. */
  type Entry = (Profile, real)

  /** The `profiles` dict: one entry per declared profile, in declaration order. */
  function ProfileScores(info: SysInfo): seq<Entry>
  {
    seq(|DeclaredOrder|, i requires 0 <= i < |DeclaredOrder| =>
      (DeclaredOrder[i], ProfileValue(DeclaredOrder[i], info)))
  }

  /** The score map has exactly the declared profiles as keys, in order, with their values. */
  lemma ProfileScoresShape(info: SysInfo)
    ensures |ProfileScores(info)| == 3
    ensures forall p :: (p, ProfileValue(p, info)) == ProfileScores(info)[DeclaredIndex(p)]
    ensures forall i, j :: 0 <= i < j < 3 ==> ProfileScores(info)[i].0 != ProfileScores(info)[j].0
  {
  }

  predicate NonIncreasing(s: seq<Entry>)
  {
    forall i, j :: 0 <= i < j < |s| ==> s[i].1 >= s[j].1
  }

  /**
   * Inserts `e` into a list sorted by descending value, ahead of every entry whose value is not
   * greater: an element that came earlier stays ahead of equal elements, as in a stable sort.
   */
  function InsertDesc(e: Entry, s: seq<Entry>): (r: seq<Entry>)
    ensures |r| == |s| + 1
    ensures multiset(r) == multiset(s) + multiset{e}
    decreases |s|
  {
    if s == [] || s[0].1 <= e.1 then [e] + s
    else
      assert s == [s[0]] + s[1..];
      [s[0]] + InsertDesc(e, s[1..])
  }

  /** Inserting into a descending list keeps it descending. */
  lemma {:induction false} InsertDescSorted(e: Entry, s: seq<Entry>)
    requires NonIncreasing(s)
    ensures NonIncreasing(InsertDesc(e, s))
    ensures InsertDesc(e, s)[0] == e || InsertDesc(e, s)[0] == s[0]
    decreases |s|
  {
    if s != [] && s[0].1 > e.1 {
      InsertDescSorted(e, s[1..]);
      var r := InsertDesc(e, s);
      var rest := InsertDesc(e, s[1..]);
      assert r == [s[0]] + rest;
      forall j | 0 < j < |r| ensures r[0].1 >= r[j].1 {
        assert r[j] in multiset(rest);
        assert r[j] in multiset(s[1..]) + multiset{e};
        if r[j] != e {
          var k :| 0 <= k < |s[1..]| && s[1..][k] == r[j];
          assert s[k + 1] == r[j];
        }
      }
    }
  }

  /** `sorted(items, key=value, reverse=True)`: a stable sort by descending value. */
  function SortDesc(s: seq<Entry>): (r: seq<Entry>)
    ensures multiset(r) == multiset(s)
    decreases |s|
  {
    if s == [] then []
    else
      assert s == [s[0]] + s[1..];
      InsertDesc(s[0], SortDesc(s[1..]))
  }

  /** The sort yields a non-increasing permutation of its input. */
  lemma {:induction false} SortDescSorted(s: seq<Entry>)
    ensures NonIncreasing(SortDesc(s))
    ensures multiset(SortDesc(s)) == multiset(s)
    decreases |s|
  {
    if s != [] {
      SortDescSorted(s[1..]);
      InsertDescSorted(s[0], SortDesc(s[1..]));
    }
  }

  /** Reference definition of the winner: the first position holding the largest value. */
  function FirstMaxIndex(s: seq<Entry>): (i: nat)
    requires |s| > 0
    ensures i < |s|
    ensures forall j :: 0 <= j < |s| ==> s[j].1 <= s[i].1
    ensures forall j :: 0 <= j < i ==> s[j].1 < s[i].1
    decreases |s|
  {
    if |s| == 1 then 0
    else
      var k := FirstMaxIndex(s[1..]);
      if s[0].1 >= s[1 + k].1 then 0 else 1 + k
  }

  /** The head of the stable descending sort is the first entry holding the maximum. */
  lemma {:induction false} SortDescHead(s: seq<Entry>)
    requires |s| > 0
    ensures |SortDesc(s)| == |s|
    ensures SortDesc(s)[0] == s[FirstMaxIndex(s)]
    decreases |s|
  {
    assert |multiset(SortDesc(s))| == |multiset(s)|;
    if |s| > 1 {
      SortDescHead(s[1..]);
    }
  }

  /** Python's `round(x, 1)` on an exact value, as a count of tenths: ties go to the even neighbour. */
  function RoundTenths(x: real): (k: int)
    ensures -0.5 <= k as real - 10.0 * x <= 0.5
    ensures (k as real - 10.0 * x == 0.5 || 10.0 * x - k as real == 0.5) ==> k % 2 == 0
  {
    var y := 10.0 * x;
    var n := y.Floor;
    var d := y - n as real;
    if d < 0.5 then n else if d > 0.5 then n + 1 else if n % 2 == 0 then n else n + 1
  }

  /** What `score_system` returns: the unrounded map, the winning profile and its rounded value. */
  datatype ScoreResult = ScoreResult(scores: seq<Entry>, main_profile: Profile, main_score: real)

  /**
   * `score_system`: total on every input. The winner holds the largest value, every profile
   * declared before it is strictly smaller (so an exact tie goes to the earlier one), and
   * `main_score` is the winner's value rounded to tenths while `scores` keeps the exact values.
   */
  function ScoreSystem(info: SysInfo): (r: ScoreResult)
    ensures r.scores == ProfileScores(info)
    ensures forall p :: ProfileValue(p, info) <= ProfileValue(r.main_profile, info)
    ensures forall p :: DeclaredIndex(p) < DeclaredIndex(r.main_profile) ==>
                          ProfileValue(p, info) < ProfileValue(r.main_profile, info)
    ensures r.main_score == RoundTenths(ProfileValue(r.main_profile, info)) as real / 10.0
  {
    var scores := ProfileScores(info);
    SortDescHead(scores);
    ProfileScoresShape(info);
    var top := SortDesc(scores)[0];
    ScoreResult(scores, top.0, RoundTenths(top.1) as real / 10.0)
  }

  /** `main_score` is within a twentieth of the winner's exact value. */
  lemma MainScoreCloseToValue(info: SysInfo)
    ensures var r := ScoreSystem(info);
      -0.05 <= r.main_score - ProfileValue(r.main_profile, info) <= 0.05
  {
  }

  /** `b` is at least `a` on speed, cores, RAM and VRAM (speed and cores not negative). */
  predicate NoMoreThan(a: SysInfo, b: SysInfo)
  {
    && 0.0 <= a.cpu_speed_ghz <= b.cpu_speed_ghz
    && 0 <= a.cores <= b.cores
    && a.ram_gb <= b.ram_gb
    && a.gpu_vram_gb <= b.gpu_vram_gb
    && a.disk_type == b.disk_type
  }

  /** The cpu figure grows with speed and with cores. */
  lemma CpuFigureMonotone(a: SysInfo, b: SysInfo)
    requires NoMoreThan(a, b)
    ensures CpuFigure(a) <= CpuFigure(b)
  {
    var sa, sb, ca, cb := a.cpu_speed_ghz, b.cpu_speed_ghz, a.cores as real, b.cores as real;
    assert sa * ca <= sb * ca by {
      assert (sb - sa) * ca >= 0.0;
    }
    assert sb * ca <= sb * cb by {
      assert sb * (cb - ca) >= 0.0;
    }
  }

  /** Every profile value is non-decreasing in speed, cores, RAM and VRAM. */
  lemma ProfileValueMonotone(p: Profile, a: SysInfo, b: SysInfo)
    requires NoMoreThan(a, b)
    ensures ProfileValue(p, a) <= ProfileValue(p, b)
  {
    CpuFigureMonotone(a, b);
  }

  /** The tag "hdd" has neither "nvme" nor "ssd": the lowest tier. */
  lemma HddTier()
    ensures DiskTier("hdd") == 0.2
  {
    assert ToLower("hdd") == "hdd";
    assert "hdd"[..3] != "ssd" by { assert "hdd"[0] != "ssd"[0]; }
    NotContainsLonger("hdd"[1..], "ssd");
  }

  /** The profile values of the worked example: 2.0 GHz x 4 cores, 8 GB RAM, "hdd", no VRAM. */
  lemma WorkedValues()
    ensures var info := SysInfo("cpu", 2.0, 4, 8.0, "hdd", "gpu", 0.0);
      && ProfileValue(Ofimatica, info) == 6.44
      && ProfileValue(Gaming, info) == 3.63
      && ProfileValue(Virtualizacion, info) == 7.22
  {
    HddTier();
  }

  /** The worked example is won by Virtualización with 7.22, reported as 7.2. */
  lemma WorkedExample()
    ensures var info := SysInfo("cpu", 2.0, 4, 8.0, "hdd", "gpu", 0.0);
      && ScoreSystem(info).main_profile == Virtualizacion
      && ScoreSystem(info).main_score == 7.2
  {
    var info := SysInfo("cpu", 2.0, 4, 8.0, "hdd", "gpu", 0.0);
    WorkedValues();
    var r := ScoreSystem(info);
    assert r.main_profile == Virtualizacion by {
      assert ProfileValue(r.main_profile, info) >= ProfileValue(Virtualizacion, info);
    }
    assert RoundTenths(7.22) == 72;
  }

  /** An all-zero record is scored without failure: the disk tier alone decides, Ofimática wins. */
  lemma ZeroRecord()
    ensures var info := SysInfo("", 0.0, 0, 0.0, "", "", 0.0);
      && ScoreSystem(info).main_profile == Ofimatica
      && ScoreSystem(info).main_score == 0.0
  {
    var info := SysInfo("", 0.0, 0, 0.0, "", "", 0.0);
    assert DiskTier("") == 0.2;
    var r := ScoreSystem(info);
    assert ProfileValue(Ofimatica, info) == 0.04;
    assert r.main_profile == Ofimatica;
    assert RoundTenths(0.04) == 0;
  }
}
