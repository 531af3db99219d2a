/** The command builder (sweep/hub/build.py): a cell's settings become flags in one order, the flags an argv, and
    a timing leg a prefix of that argv. */
module Build {
  import opened Wrappers
  import opened Sorting
  import CellKey

  datatype Role = Identity | Computed | DefaultResolved

  datatype Setting = Setting(id: string, value: string, role: Role)

  /** A row of the `setting` table: the flag it passes, and what kind of setting it is. */
  datatype Known = Known(flag: string, kind: string)

  type Catalogue = map<string, Known>

  type Flag = (string, string)

  /** What a flag is sorted by, then the flag: mode selectors, the anchor, the rest; then the id. */
  datatype Ranked = Ranked(rank: int, id: string, flag: string, value: string)

  function KindRank(kind: string): int {
    if kind == "mode_selector" then 0 else if kind == "quality_anchor" then 1 else 2
  }

  predicate RankedLe(a: Ranked, b: Ranked) {
    if a.rank != b.rank then a.rank < b.rank
    else if a.id != b.id then StringLe(a.id, b.id)
    else if a.flag != b.flag then StringLe(a.flag, b.flag)
    else StringLe(a.value, b.value)
  }

  lemma RankedLeTotal()
    ensures TotalOrder(RankedLe)
  {
    StringLeTotal();
  }

  /** Identity and computed settings are passed; a recorded default is not. */
  function Passed(settings: seq<Setting>): seq<Setting> {
    if settings == [] then []
    else (if settings[0].role == DefaultResolved then [] else [settings[0]]) + Passed(settings[1..])
  }

  predicate AllKnown(table: Catalogue, settings: seq<Setting>) { forall i | 0 <= i < |settings| :: settings[i].id in table }

  function RankOf(table: Catalogue, s: Setting): Ranked {
    var row := if s.id in table then table[s.id] else Known("", "");
    Ranked(KindRank(row.kind), s.id, row.flag, s.value)
  }

  function Ranks(table: Catalogue, settings: seq<Setting>): seq<Ranked> { Map((s: Setting) => RankOf(table, s), settings) }

  function FlagsOf(ranked: seq<Ranked>): seq<Flag> { Map((r: Ranked) => (r.flag, r.value), ranked) }

  /** E1's order. */
  function InOrder(table: Catalogue, settings: seq<Setting>): seq<Flag> {
    FlagsOf(Sort(RankedLe, Ranks(table, Passed(settings))))
  }

  method OrderedFlags(table: Catalogue, settings: seq<Setting>) returns (flags: Result<seq<Flag>>)
    ensures flags.Ok? <==> AllKnown(table, Passed(settings))
    ensures flags.Ok? ==> flags.value == InOrder(table, settings)
  {
    var out: seq<Ranked> := [];
    var i := 0;
    while i < |settings|
      invariant 0 <= i <= |settings|
      invariant AllKnown(table, Passed(settings[..i])) && out == Ranks(table, Passed(settings[..i]))
    {
      var s := settings[i];
      ghost var before := settings[..i];
      PassedOne(before, s);
      assert settings[..i + 1] == before + [s];
      i := i + 1;
      if s.role == DefaultResolved { continue; }
      PassedHas(settings, i - 1);
      RanksNext(table, Passed(before), s);
      if s.id !in table { return Refused; }
      out := out + [Ranked(KindRank(table[s.id].kind), s.id, table[s.id].flag, s.value)];
    }
    assert settings[..i] == settings;
    flags := Ok(FlagsOf(Sort(RankedLe, out)));
  }

  lemma {:induction false} PassedConcat(a: seq<Setting>, b: seq<Setting>)
    ensures Passed(a + b) == Passed(a) + Passed(b)
  {
    if a == [] {
      assert a + b == b;
    } else {
      assert (a + b)[1..] == a[1..] + b;
      PassedConcat(a[1..], b);
    }
  }

  lemma PassedOne(before: seq<Setting>, s: Setting)
    ensures Passed(before + [s]) == if s.role == DefaultResolved then Passed(before) else Passed(before) + [s]
  {
    PassedConcat(before, [s]);
    assert Passed([s]) == if s.role == DefaultResolved then [] else [s];
  }

  lemma PassedHas(settings: seq<Setting>, i: nat)
    requires i < |settings| && settings[i].role != DefaultResolved
    ensures exists j :: 0 <= j < |Passed(settings)| && Passed(settings)[j] == settings[i]
  {
    assert settings == settings[..i + 1] + settings[i + 1..] && settings[..i + 1] == settings[..i] + [settings[i]];
    PassedConcat(settings[..i + 1], settings[i + 1..]);
    PassedOne(settings[..i], settings[i]);
    assert Passed(settings)[|Passed(settings[..i])|] == settings[i];
  }

  lemma RanksNext(table: Catalogue, passed: seq<Setting>, s: Setting)
    ensures Ranks(table, passed + [s]) == Ranks(table, passed) + [RankOf(table, s)]
  {
    var f := (x: Setting) => RankOf(table, x);
    MapConcat(f, passed, [s]);
    assert Map(f, [s]) == [f(s)];
  }

  // ---- order and defaults do not matter

  /** The flags are those of the passed settings, in whatever order they come and whatever defaults stand beside
      them. */
  lemma FlagsForgetOrder(table: Catalogue, a: seq<Setting>, b: seq<Setting>)
    requires multiset(Passed(a)) == multiset(Passed(b))
    ensures InOrder(table, a) == InOrder(table, b)
    ensures AllKnown(table, Passed(a)) <==> AllKnown(table, Passed(b))
  {
    MapPermuted((x: Setting) => RankOf(table, x), Passed(a), Passed(b));
    RankedLeTotal();
    SortCanonical(RankedLe, Ranks(table, Passed(a)), Ranks(table, Passed(b)));
    if AllKnown(table, Passed(a)) { KnownForgetOrder(table, Passed(a), Passed(b)); }
    if AllKnown(table, Passed(b)) { KnownForgetOrder(table, Passed(b), Passed(a)); }
  }

  lemma KnownForgetOrder(table: Catalogue, a: seq<Setting>, b: seq<Setting>)
    requires multiset(a) == multiset(b) && AllKnown(table, a)
    ensures AllKnown(table, b)
  {
    forall i | 0 <= i < |b| ensures b[i].id in table {
      assert b[i] in multiset(a);
      var j :| 0 <= j < |a| && a[j] == b[i];
    }
  }

  /** Exactly the passed settings come out, each as its own flag: a rearrangement in which ranks never fall, and
      ids never fall within a rank. */
  lemma FlagsAreInOrder(table: Catalogue, settings: seq<Setting>) returns (sorted: seq<Ranked>)
    ensures multiset(sorted) == multiset(Ranks(table, Passed(settings)))
    ensures InOrder(table, settings) == FlagsOf(sorted) && |InOrder(table, settings)| == |Passed(settings)|
    ensures forall i, j | 0 <= i < j < |sorted| ::
              sorted[i].rank < sorted[j].rank || (sorted[i].rank == sorted[j].rank && StringLe(sorted[i].id, sorted[j].id))
    ensures forall i | 0 <= i < |sorted| :: |FlagsOf(sorted)| == |sorted| && FlagsOf(sorted)[i] == (sorted[i].flag, sorted[i].value)
  {
    sorted := Sort(RankedLe, Ranks(table, Passed(settings)));
    RankedLeTotal();
    StringLeTotal();
    SortAscending(RankedLe, Ranks(table, Passed(settings)));
    forall i, j | 0 <= i < j < |sorted|
      ensures sorted[i].rank < sorted[j].rank || (sorted[i].rank == sorted[j].rank && StringLe(sorted[i].id, sorted[j].id))
    {
      assert RankedLe(sorted[i], sorted[j]);
      assert StringLe(sorted[i].id, sorted[i].id);
    }
  }

  /** Which settings are passed: each as often as it is listed, but for the recorded defaults. */
  lemma {:induction false} PassedAre(settings: seq<Setting>, s: Setting)
    ensures multiset(Passed(settings))[s] == if s.role == DefaultResolved then 0 else multiset(settings)[s]
  {
    if settings != [] {
      PassedAre(settings[1..], s);
      assert settings == [settings[0]] + settings[1..];
    }
  }

  /** A setting's name and value. */
  function Named(s: Setting): (string, string) { (s.id, s.value) }

  function Sent(r: Ranked): (string, string) { (r.id, r.value) }

  /** What kind comes before what: mode selectors, then the anchor, then everything else; within one of these by id. */
  ghost predicate ComesFirst(table: Catalogue, a: string, b: string)
    requires a in table && b in table
  {
    var kind, other := table[a].kind, table[b].kind;
    if kind == other || (kind != "mode_selector" && kind != "quality_anchor" && other != "mode_selector" && other != "quality_anchor")
    then StringLe(a, b)
    else kind == "mode_selector" || (kind == "quality_anchor" && other != "mode_selector")
  }

  /** The flags in the rows of the `setting` table: there is a listing of the passed settings in which what comes first
      comes first, and each stands there as its row's flag and its own value. */
  lemma FlagsByKind(table: Catalogue, settings: seq<Setting>) returns (order: seq<(string, string)>)
    requires AllKnown(table, Passed(settings))
    ensures multiset(order) == multiset(Map(Named, Passed(settings))) && |order| == |InOrder(table, settings)|
    ensures forall i | 0 <= i < |order| :: order[i].0 in table && InOrder(table, settings)[i] == (table[order[i].0].flag, order[i].1)
    ensures forall i, j | 0 <= i < j < |order| :: ComesFirst(table, order[i].0, order[j].0)
  {
    var sorted := FlagsAreInOrder(table, settings);
    var ranks := Ranks(table, Passed(settings));
    order := Map(Sent, sorted);
    MapPermuted(Sent, sorted, ranks);
    assert Map(Sent, ranks) == Map(Named, Passed(settings));
    forall i | 0 <= i < |sorted| ensures FromRow(table, sorted[i]) { SortedFromRow(table, settings, sorted, i); }
    forall i, j | 0 <= i < j < |order| ensures ComesFirst(table, order[i].0, order[j].0) {
      assert FromRow(table, sorted[i]) && FromRow(table, sorted[j]);
    }
  }

  predicate FromRow(table: Catalogue, r: Ranked) { r.id in table && r.flag == table[r.id].flag && r.rank == KindRank(table[r.id].kind) }

  lemma SortedFromRow(table: Catalogue, settings: seq<Setting>, sorted: seq<Ranked>, i: nat)
    requires AllKnown(table, Passed(settings)) && multiset(sorted) == multiset(Ranks(table, Passed(settings))) && i < |sorted|
    ensures FromRow(table, sorted[i])
  {
    assert sorted[i] in multiset(sorted);
    var j :| 0 <= j < |Passed(settings)| && Ranks(table, Passed(settings))[j] == sorted[i];
    assert Passed(settings)[j].id in table;
  }

  // ---- the key determines the flags

  function AsIdentity(pairs: seq<(string, string)>): seq<Setting> { Map((p: (string, string)) => Setting(p.0, p.1, Identity), pairs) }

  /** A planned cell's settings: its identity, then the unit's defaults for what it does not set. */
  function CellSettings(pairs: seq<(string, string)>, defaults: seq<(string, string)>): seq<Setting> {
    AsIdentity(pairs) + AsDefaults(defaults)
  }

  function AsDefaults(pairs: seq<(string, string)>): seq<Setting> {
    Map((p: (string, string)) => Setting(p.0, p.1, DefaultResolved), pairs)
  }

  lemma OnlyIdentityPassed(pairs: seq<(string, string)>, defaults: seq<(string, string)>)
    ensures Passed(CellSettings(pairs, defaults)) == AsIdentity(pairs)
  {
    PassedConcat(AsIdentity(pairs), AsDefaults(defaults));
    AllPassed(AsIdentity(pairs));
    NonePassed(AsDefaults(defaults));
  }

  lemma {:induction false} AllPassed(settings: seq<Setting>)
    requires forall s | s in settings :: s.role != DefaultResolved
    ensures Passed(settings) == settings
  {
    if settings != [] { AllPassed(settings[1..]); }
  }

  lemma {:induction false} NonePassed(settings: seq<Setting>)
    requires forall s | s in settings :: s.role == DefaultResolved
    ensures Passed(settings) == []
  {
    if settings != [] { NonePassed(settings[1..]); }
  }

  /** Cells with one key get the very same flags, whatever defaults their units resolve. */
  lemma KeyDeterminesFlags(digest: string -> string, table: Catalogue, a: CellKey.Configuration, b: CellKey.Configuration,
                           defaultsA: seq<(string, string)>, defaultsB: seq<(string, string)>)
    requires CellKey.Injective(digest) && digest(CellKey.Blob(a)) == digest(CellKey.Blob(b))
    ensures InOrder(table, CellSettings(a.pairs, defaultsA)) == InOrder(table, CellSettings(b.pairs, defaultsB))
  {
    CellKey.KeyTellsApart(digest, a, b);
    MapPermuted((p: (string, string)) => Setting(p.0, p.1, Identity), a.pairs, b.pairs);
    OnlyIdentityPassed(a.pairs, defaultsA);
    OnlyIdentityPassed(b.pairs, defaultsB);
    FlagsForgetOrder(table, CellSettings(a.pairs, defaultsA), CellSettings(b.pairs, defaultsB));
  }

  // ---- the argv, and its legs

  type Argv = seq<string>

  const PLUMBING: Argv := ["-nostdin", "-y", "-hide_banner", "-loglevel", "error", "-nostats"]

  predicate IsFrontend(f: string) { f == "nvenc" || f == "vaapi" || f == "qsv" }

  /** The hardware-decode flags, one definition. */
  function HwaccelFlags(frontend: string, device: string): Argv {
    if frontend == "nvenc" then ["-hwaccel", "cuda", "-hwaccel_output_format", "cuda"]
    else if frontend == "vaapi" then ["-hwaccel", "vaapi", "-hwaccel_output_format", "vaapi", "-vaapi_device", device]
    else ["-hwaccel", "qsv", "-hwaccel_output_format", "qsv", "-qsv_device", device]
  }

  /** What comes before the input. */
  function BeforeInput(frontend: string, device: string, vf: Option<string>, software: bool): Argv {
    if vf.Some? && software then (if frontend == "vaapi" then ["-vaapi_device", device] else [])
    else if vf.Some? then HwaccelFlags(frontend, device)
    else if frontend == "nvenc" then []
    else if frontend == "vaapi" then ["-vaapi_device", device]
    else ["-init_hw_device", "qsv=hw,child_device=" + device, "-filter_hw_device", "hw"]
  }

  /** The filter graph, if there is one. */
  function Graph(frontend: string, vf: Option<string>, software: bool): Option<string> {
    if vf.Some? && software then Some("format=p010,hwupload," + vf.value)
    else if vf.Some? then vf
    else if frontend == "nvenc" then None
    else if frontend == "vaapi" then Some("format=p010,hwupload")
    else Some("format=p010,hwupload=extra_hw_frames=64")
  }

  /** What is decoded: the leg that stops before the filters. */
  function DecodeStem(frontend: string, device: string, src: string, vf: Option<string>, software: bool): Argv {
    PLUMBING + BeforeInput(frontend, device, vf, software) + ["-i", src]
  }

  /** And filtered: the leg that stops before the encoder. */
  function FilterStem(frontend: string, device: string, src: string, vf: Option<string>, software: bool): Argv {
    var graph := Graph(frontend, vf, software);
    DecodeStem(frontend, device, src, vf, software) + if graph.Some? then ["-vf", graph.value] else []
  }

  function Spread(flags: seq<Flag>): Argv { if flags == [] then [] else [flags[0].0, flags[0].1] + Spread(flags[1..]) }

  /** The encoder: its name, its flags, what its output is tagged as. */
  function Encoder(frontend: string, codec: string, flags: seq<Flag>, dst: string, vf: Option<string>): Argv {
    ["-c:v", codec + "_" + frontend] + Spread(flags)
    + (if frontend == "nvenc" && vf.None? then ["-pix_fmt", "p010le"] else [])
    + (if codec == "hevc" then ["-tag:v", "hvc1"] else [])
    + ["-an", "-sn", dst]
  }

  /** Up to the encoder: plumbing, input, filters. */
  method InputArgv(frontend: string, device: string, src: string, vf: Option<string>, software: bool) returns (argv: Argv)
    requires IsFrontend(frontend)
    ensures argv == FilterStem(frontend, device, src, vf, software)
  {
    argv := PLUMBING;
    if vf.Some? {
      if software {
        argv := argv + if frontend == "vaapi" then ["-vaapi_device", device] else [];
        argv := argv + ["-i", src, "-vf", "format=p010,hwupload," + vf.value];
      } else {
        argv := argv + HwaccelFlags(frontend, device) + ["-i", src, "-vf", vf.value];
      }
    } else if frontend == "nvenc" {
      argv := argv + ["-i", src];
    } else if frontend == "vaapi" {
      argv := argv + ["-vaapi_device", device, "-i", src, "-vf", "format=p010,hwupload"];
    } else {
      argv := argv + ["-init_hw_device", "qsv=hw,child_device=" + device, "-filter_hw_device", "hw", "-i", src,
                      "-vf", "format=p010,hwupload=extra_hw_frames=64"];
    }
  }

  method AppendFlags(argv: Argv, flags: seq<Flag>) returns (out: Argv)
    ensures out == argv + Spread(flags)
  {
    out := argv;
    var i := 0;
    while i < |flags|
      invariant 0 <= i <= |flags| && out == argv + Spread(flags[..i])
    {
      SpreadNext(flags, i);
      out := out + [flags[i].0, flags[i].1];
      i := i + 1;
    }
    assert flags[..i] == flags;
  }

  method EncodeArgv(frontend: string, codec: string, flags: seq<Flag>, device: string, src: string, dst: string,
                    vf: Option<string>, software: bool)
    returns (r: Result<Argv>)
    ensures r.Ok? <==> IsFrontend(frontend)
    ensures r.Ok? ==> r.value == WholeArgv(frontend, codec, flags, device, src, dst, vf, software)
  {
    if !IsFrontend(frontend) { return Refused; }
    var argv := InputArgv(frontend, device, src, vf, software);
    ghost var stem := argv;
    argv := AppendFlags(argv + ["-c:v", codec + "_" + frontend], flags);
    if frontend == "nvenc" && vf.None? { argv := argv + ["-pix_fmt", "p010le"]; }
    if codec == "hevc" { argv := argv + ["-tag:v", "hvc1"]; }
    argv := argv + ["-an", "-sn", dst];
    Regrouped(stem, ["-c:v", codec + "_" + frontend], Spread(flags), if frontend == "nvenc" && vf.None? then ["-pix_fmt", "p010le"] else [],
              if codec == "hevc" then ["-tag:v", "hvc1"] else [], ["-an", "-sn", dst]);
    r := Ok(argv);
  }

  lemma Regrouped(a: Argv, b: Argv, c: Argv, d: Argv, e: Argv, f: Argv)
    ensures a + b + c + d + e + f == a + (b + c + d + e + f)
    ensures d == [] ==> a + b + c + e + f == a + b + c + d + e + f
    ensures e == [] ==> a + b + c + d + f == a + b + c + d + e + f
    ensures d == [] && e == [] ==> a + b + c + f == a + b + c + d + e + f
  {
  }

  lemma {:induction false} SpreadConcat(a: seq<Flag>, b: seq<Flag>)
    ensures Spread(a + b) == Spread(a) + Spread(b)
  {
    if a == [] {
      assert a + b == b;
    } else {
      assert (a + b)[1..] == a[1..] + b;
      SpreadConcat(a[1..], b);
    }
  }

  lemma SpreadNext(flags: seq<Flag>, i: nat)
    requires i < |flags|
    ensures Spread(flags[..i + 1]) == Spread(flags[..i]) + [flags[i].0, flags[i].1]
  {
    assert flags[..i + 1] == flags[..i] + [flags[i]];
    SpreadConcat(flags[..i], [flags[i]]);
    assert Spread([flags[i]]) == [flags[i].0, flags[i].1];
  }

  /** Where a token first stands. */
  function IndexOf(argv: Argv, token: string): (i: nat)
    requires token in argv
    ensures i < |argv| && argv[i] == token && token !in argv[..i]
  {
    if argv[0] == token then 0 else 1 + IndexOf(argv[1..], token)
  }

  const NULL_OUTPUT: Argv := ["-f", "null", "-"]

  /** A timing leg: the whole argv, or its part before the encoder, or before the filters. */
  method Leg(argv: Argv, name: string) returns (r: Result<Argv>)
    ensures r.Ok? <==> name == "full" || (name in {"decode", "decode_filters"} && "-c:v" in argv)
    ensures r.Ok? && name == "full" ==> r.value == argv
    ensures r.Ok? && name != "full" ==> r.value == LegStem(argv, name) + NULL_OUTPUT
  {
    if name == "full" { return Ok(argv); }
    if name != "decode" && name != "decode_filters" { return Refused; }
    if "-c:v" !in argv { return Refused; }
    var cut := IndexOf(argv, "-c:v");
    if name == "decode" && "-vf" in argv {
      var filters := IndexOf(argv, "-vf");
      cut := if filters < cut then filters else cut;
    }
    r := Ok(argv[..cut] + NULL_OUTPUT);
  }

  /** The part of the argv a leg runs. */
  function LegStem(argv: Argv, name: string): Argv
    requires "-c:v" in argv
  {
    var cut := IndexOf(argv, "-c:v");
    if name == "decode" && "-vf" in argv && IndexOf(argv, "-vf") < cut then argv[..IndexOf(argv, "-vf")] else argv[..cut]
  }

  /** A token that no leg is cut at. */
  predicate Plain(token: string) { token != "-vf" && token != "-c:v" }

  lemma {:induction false} CutAt(stem: Argv, token: string, rest: Argv)
    requires token !in stem
    ensures var argv := stem + ([token] + rest); token in argv && IndexOf(argv, token) == |stem|
  {
    var argv := stem + ([token] + rest);
    assert argv[|stem|] == token;
    if stem != [] {
      assert argv[0] == stem[0] && argv[1..] == stem[1..] + ([token] + rest);
      CutAt(stem[1..], token, rest);
    }
  }

  lemma {:induction false} NotBefore(stem: Argv, token: string, rest: Argv)
    requires token !in stem && token in stem + rest
    ensures IndexOf(stem + rest, token) >= |stem|
  {
    var argv := stem + rest;
    if stem != [] {
      assert argv[0] == stem[0] && argv[1..] == stem[1..] + rest;
      NotBefore(stem[1..], token, rest);
    }
  }

  lemma StemIsPlain(frontend: string, device: string, src: string, vf: Option<string>, software: bool)
    requires IsFrontend(frontend) && Plain(device) && Plain(src) && (vf.Some? ==> Plain(vf.value))
    ensures forall t | t in DecodeStem(frontend, device, src, vf, software) :: Plain(t)
    ensures Graph(frontend, vf, software).Some? ==> Plain(Graph(frontend, vf, software).value)
  {
    assert ("qsv=hw,child_device=" + device)[0] == 'q';
    if vf.Some? { assert ("format=p010,hwupload," + vf.value)[0] == 'f'; }
    forall t | t in PLUMBING ensures Plain(t) {}
    forall t | t in BeforeInput(frontend, device, vf, software) ensures Plain(t) {}
  }

  lemma CutAtEncoder(stem: Argv, tail: Argv)
    requires "-c:v" !in stem && tail != [] && tail[0] == "-c:v"
    ensures "-c:v" in stem + tail && IndexOf(stem + tail, "-c:v") == |stem| && (stem + tail)[..|stem|] == stem
  {
    assert tail == ["-c:v"] + tail[1..];
    CutAt(stem, "-c:v", tail[1..]);
  }

  lemma Unfiltered(stem: Argv, tail: Argv)
    requires (forall t | t in stem :: Plain(t)) && tail != [] && tail[0] == "-c:v"
    ensures "-c:v" in stem + tail && LegStem(stem + tail, "decode") == stem && LegStem(stem + tail, "decode_filters") == stem
  {
    CutAtEncoder(stem, tail);
    if "-vf" in stem + tail { NotBefore(stem, "-vf", tail); }
  }

  lemma Filtered(decode: Argv, graph: string, tail: Argv)
    requires (forall t | t in decode :: Plain(t)) && Plain(graph) && tail != [] && tail[0] == "-c:v"
    ensures var stem := decode + ["-vf", graph];
            && "-c:v" in stem + tail
            && LegStem(stem + tail, "decode") == decode && LegStem(stem + tail, "decode_filters") == stem
  {
    var stem := decode + ["-vf", graph];
    CutAtEncoder(stem, tail);
    assert stem + tail == decode + (["-vf"] + ([graph] + tail));
    CutAt(decode, "-vf", [graph] + tail);
    assert (stem + tail)[..|decode|] == decode;
  }

  /** The legs nest: decode is the argv up to its input, decode_filters goes on with the filter graph if there is
      one, and full with the encoder; no name of a device, a file or a chain being `-vf` or `-c:v` itself. */
  lemma LegsNest(frontend: string, codec: string, flags: seq<Flag>, device: string, src: string, dst: string, vf: Option<string>, software: bool)
    requires IsFrontend(frontend) && Plain(device) && Plain(src) && (vf.Some? ==> Plain(vf.value))
    ensures var stem, tail := FilterStem(frontend, device, src, vf, software), Encoder(frontend, codec, flags, dst, vf);
            && "-c:v" in stem + tail
            && LegStem(stem + tail, "decode") == DecodeStem(frontend, device, src, vf, software)
            && LegStem(stem + tail, "decode_filters") == stem
            && DecodeStem(frontend, device, src, vf, software) <= stem < stem + tail
  {
    StemIsPlain(frontend, device, src, vf, software);
    var decode, graph := DecodeStem(frontend, device, src, vf, software), Graph(frontend, vf, software);
    if graph.Some? {
      Filtered(decode, graph.value, Encoder(frontend, codec, flags, dst, vf));
    } else {
      assert FilterStem(frontend, device, src, vf, software) == decode;
      Unfiltered(decode, Encoder(frontend, codec, flags, dst, vf));
    }
  }

  // ---- the argv in full

  /** What every encode ends in: the encoder, its flags, the pixel format of a lossless upload to nvenc, the tag of an
      HEVC output, no audio, no subtitles, and where it goes. */
  function Ending(codec: string, frontend: string, flags: seq<Flag>, pixFmt: bool, dst: string): Argv {
    ["-c:v", codec + "_" + frontend] + Spread(flags) + (if pixFmt then ["-pix_fmt", "p010le"] else [])
    + (if codec == "hevc" then ["-tag:v", "hvc1"] else []) + ["-an", "-sn", dst]
  }

  const HEAD: Argv := ["-nostdin", "-y", "-hide_banner", "-loglevel", "error", "-nostats"]

  /** Each flag, then its value. */
  lemma {:induction false} SpreadIs(flags: seq<Flag>)
    ensures |Spread(flags)| == 2 * |flags|
    ensures forall i | 0 <= i < |flags| :: Spread(flags)[2 * i] == flags[i].0 && Spread(flags)[2 * i + 1] == flags[i].1
  {
    if flags != [] {
      SpreadIs(flags[1..]);
      var rest := Spread(flags[1..]);
      forall i | 0 <= i < |flags| ensures Spread(flags)[2 * i] == flags[i].0 && Spread(flags)[2 * i + 1] == flags[i].1 {
        if i > 0 {
          var j := i - 1;
          assert flags[i] == flags[1..][j] && rest[2 * j] == flags[1..][j].0 && rest[2 * j + 1] == flags[1..][j].1;
          assert Spread(flags)[2 * i] == rest[2 * j] && Spread(flags)[2 * i + 1] == rest[2 * j + 1];
        }
      }
    }
  }

  function WholeArgv(frontend: string, codec: string, flags: seq<Flag>, device: string, src: string, dst: string, vf: Option<string>, software: bool): Argv {
    FilterStem(frontend, device, src, vf, software) + Encoder(frontend, codec, flags, dst, vf)
  }

  /** A lossless cut is uploaded to the card: by the frontend itself, or by its own device and filters. */
  lemma LosslessArgv(codec: string, flags: seq<Flag>, device: string, src: string, dst: string, software: bool)
    ensures WholeArgv("nvenc", codec, flags, device, src, dst, None, software) ==
            HEAD + ["-i", src] + Ending(codec, "nvenc", flags, true, dst)
    ensures WholeArgv("vaapi", codec, flags, device, src, dst, None, software) ==
            HEAD + ["-vaapi_device", device, "-i", src, "-vf", "format=p010,hwupload"] + Ending(codec, "vaapi", flags, false, dst)
    ensures WholeArgv("qsv", codec, flags, device, src, dst, None, software) ==
            HEAD + ["-init_hw_device", "qsv=hw,child_device=" + device, "-filter_hw_device", "hw", "-i", src,
                    "-vf", "format=p010,hwupload=extra_hw_frames=64"] + Ending(codec, "qsv", flags, false, dst)
  {
    LosslessNvenc(codec, flags, device, src, dst, software);
    LosslessVaapi(codec, flags, device, src, dst, software);
    LosslessQsv(codec, flags, device, src, dst, software);
  }

  lemma LosslessNvenc(codec: string, flags: seq<Flag>, device: string, src: string, dst: string, software: bool)
    ensures WholeArgv("nvenc", codec, flags, device, src, dst, None, software) ==
            HEAD + ["-i", src] + Ending(codec, "nvenc", flags, true, dst)
  {
  }

  lemma LosslessVaapi(codec: string, flags: seq<Flag>, device: string, src: string, dst: string, software: bool)
    ensures WholeArgv("vaapi", codec, flags, device, src, dst, None, software) ==
            HEAD + ["-vaapi_device", device, "-i", src, "-vf", "format=p010,hwupload"] + Ending(codec, "vaapi", flags, false, dst)
  {
  }

  lemma LosslessQsv(codec: string, flags: seq<Flag>, device: string, src: string, dst: string, software: bool)
    ensures WholeArgv("qsv", codec, flags, device, src, dst, None, software) ==
            HEAD + ["-init_hw_device", "qsv=hw,child_device=" + device, "-filter_hw_device", "hw", "-i", src,
                    "-vf", "format=p010,hwupload=extra_hw_frames=64"] + Ending(codec, "qsv", flags, false, dst)
  {
  }

  /** A production input is decoded in hardware, each frontend with its own device option, and run through the chain. */
  lemma HardwareArgv(codec: string, flags: seq<Flag>, device: string, src: string, dst: string, chain: string)
    ensures WholeArgv("nvenc", codec, flags, device, src, dst, Some(chain), false) ==
            HEAD + ["-hwaccel", "cuda", "-hwaccel_output_format", "cuda", "-i", src, "-vf", chain] + Ending(codec, "nvenc", flags, false, dst)
    ensures WholeArgv("vaapi", codec, flags, device, src, dst, Some(chain), false) ==
            HEAD + ["-hwaccel", "vaapi", "-hwaccel_output_format", "vaapi", "-vaapi_device", device, "-i", src, "-vf", chain]
            + Ending(codec, "vaapi", flags, false, dst)
    ensures WholeArgv("qsv", codec, flags, device, src, dst, Some(chain), false) ==
            HEAD + ["-hwaccel", "qsv", "-hwaccel_output_format", "qsv", "-qsv_device", device, "-i", src, "-vf", chain]
            + Ending(codec, "qsv", flags, false, dst)
  {
  }

  /** Or decoded in software and uploaded before the chain; only vaapi still names its device. */
  lemma SoftwareArgv(codec: string, flags: seq<Flag>, device: string, src: string, dst: string, chain: string)
    ensures WholeArgv("nvenc", codec, flags, device, src, dst, Some(chain), true) ==
            HEAD + ["-i", src, "-vf", "format=p010,hwupload," + chain] + Ending(codec, "nvenc", flags, false, dst)
    ensures WholeArgv("vaapi", codec, flags, device, src, dst, Some(chain), true) ==
            HEAD + ["-vaapi_device", device, "-i", src, "-vf", "format=p010,hwupload," + chain] + Ending(codec, "vaapi", flags, false, dst)
    ensures WholeArgv("qsv", codec, flags, device, src, dst, Some(chain), true) ==
            HEAD + ["-i", src, "-vf", "format=p010,hwupload," + chain] + Ending(codec, "qsv", flags, false, dst)
  {
  }
}
