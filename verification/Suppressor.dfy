/** The lint suppressor of `tools/heph-govet/filter.go`: `//nolint` indexing, generated-file
    detection, and the two caches that concurrent reporters share under one mutex. */
module Suppressor {
  import opened Common

  datatype Mode = Lax | Strict | Disable

  /** The text primitives, left uninterpreted: trimming, the directive pattern (its name group when
      a line matches) and the generated-file markers. */
  datatype Text = Text(
    trim: string -> string,
    directive: string -> Option<string>,
    strictMark: string -> bool,
    laxMark: string -> bool)

  /** File contents by name, fixed while the linters run; an unreadable file is absent. */
  type Files = map<string, seq<string>>

  function Lines(files: Files, file: string): seq<string> {
    if file in files then files[file] else []
  }

  // ---------------------------------------------------------------- what a directive names

  /** `strings.Split(s, ",")`. */
  function SplitComma(s: string): (r: seq<string>)
    ensures |r| >= 1
  {
    if s == "" then [""]
    else
      var r := SplitComma(s[1..]);
      if s[0] == ',' then [""] + r else [[s[0]] + r[0]] + r[1..]
  }

  function JoinComma(pieces: seq<string>): string
    requires |pieces| >= 1
  {
    if |pieces| == 1 then pieces[0] else pieces[0] + "," + JoinComma(pieces[1..])
  }

  ghost predicate CommaFree(pieces: seq<string>) {
    forall i :: 0 <= i < |pieces| ==> ',' !in pieces[i]
  }

  /** Splitting cuts at the commas and nowhere else: the pieces hold none, and joined with commas
      they are the text again. */
  lemma {:induction false} SplitIsAtCommas(s: string)
    ensures CommaFree(SplitComma(s)) && JoinComma(SplitComma(s)) == s
  {
    if s != "" {
      SplitIsAtCommas(s[1..]);
      var r := SplitComma(s[1..]);
      if s[0] == ',' {
        assert ([""] + r)[1..] == r;
        assert "" + "," + JoinComma(r) == s;
      } else {
        var t := [[s[0]] + r[0]] + r[1..];
        assert t[1..] == r[1..];
        assert s == [s[0]] + s[1..];
      }
    }
  }

  lemma {:induction false} SplitPlain(p: string)
    requires ',' !in p
    ensures SplitComma(p) == [p]
  {
    if p != "" {
      SplitPlain(p[1..]);
      assert p == [p[0]] + p[1..];
    }
  }

  lemma {:induction false} SplitAfter(p: string, rest: string)
    requires ',' !in p
    ensures SplitComma(p + "," + rest) == [p] + SplitComma(rest)
  {
    if p == "" {
      assert (p + "," + rest)[1..] == rest;
    } else {
      SplitAfter(p[1..], rest);
      assert (p + "," + rest)[1..] == p[1..] + "," + rest;
      assert ([p[1..]] + SplitComma(rest))[1..] == SplitComma(rest);
      assert p == [p[0]] + p[1..];
    }
  }

  /** And only one list of pieces does that. */
  lemma {:induction false} SplitUndoesJoin(pieces: seq<string>)
    requires |pieces| >= 1 && CommaFree(pieces)
    ensures SplitComma(JoinComma(pieces)) == pieces
  {
    if |pieces| == 1 {
      SplitPlain(pieces[0]);
    } else {
      SplitUndoesJoin(pieces[1..]);
      SplitAfter(pieces[0], JoinComma(pieces[1..]));
    }
  }

  /** The set a name list makes: `all` is the wildcard and empty entries are skipped. */
  function NameSet(tx: Text, pieces: seq<string>): set<string> {
    if pieces == [] then {}
    else
      var n := tx.trim(pieces[|pieces| - 1]);
      NameSet(tx, pieces[..|pieces| - 1]) + if n == "" then {} else if n == "all" then {"*"} else {n}
  }

  /** The linters a line's directive silences; `None` when it has no directive. */
  function DirectiveSet(tx: Text, line: string): Option<set<string>> {
    match tx.directive(line)
    case None => None
    case Some(group) =>
      var names := tx.trim(group);
      Some(if names == "" then {"*"} else NameSet(tx, SplitComma(names)))
  }

  /** The comment stands alone on its line. */
  predicate OwnLine(tx: Text, line: string) {
    var t := tx.trim(line);
    |t| >= 2 && t[0] == '/' && t[1] == '/'
  }

  /** In the user's terms: the line has a directive that is bare, or lists `all` or the linter. */
  ghost predicate Names(tx: Text, line: string, linter: string) {
    tx.directive(line).Some? &&
    var names := tx.trim(tx.directive(line).value);
    names == "" || exists i :: 0 <= i < |SplitComma(names)| && NamesPiece(tx.trim(SplitComma(names)[i]), linter)
  }

  predicate NamesPiece(n: string, linter: string) {
    n == "all" || n == "*" || (n != "" && n == linter)
  }

  predicate Silences(names: set<string>, linter: string) { "*" in names || linter in names }

  lemma {:induction false} NameSetNames(tx: Text, pieces: seq<string>, linter: string)
    ensures Silences(NameSet(tx, pieces), linter)
       <==> exists i :: 0 <= i < |pieces| && NamesPiece(tx.trim(pieces[i]), linter)
    decreases |pieces|
  {
    if pieces != [] {
      var front := pieces[..|pieces| - 1];
      NameSetNames(tx, front, linter);
      if i :| 0 <= i < |pieces| && NamesPiece(tx.trim(pieces[i]), linter) {
        assert i < |front| ==> NamesPiece(tx.trim(front[i]), linter);
      }
      if i :| 0 <= i < |front| && NamesPiece(tx.trim(front[i]), linter) {
        assert NamesPiece(tx.trim(pieces[i]), linter);
      }
    }
  }

  lemma DirectiveNames(tx: Text, line: string, linter: string)
    ensures Names(tx, line, linter)
       <==> DirectiveSet(tx, line).Some? && Silences(DirectiveSet(tx, line).value, linter)
  {
    if tx.directive(line).Some? {
      NameSetNames(tx, SplitComma(tx.trim(tx.directive(line).value)), linter);
    }
  }

  // ---------------------------------------------------------------- the index of a file

  type Index = map<int, set<string>>

  function At(index: Index, line: int): set<string> {
    if line in index then index[line] else {}
  }

  function AddNolint(index: Index, line: int, names: set<string>): Index {
    index[line := At(index, line) + names]
  }

  /** The index after the first lines of a file; lines count from 1. */
  function ScanIndex(tx: Text, lines: seq<string>): Index {
    if lines == [] then map[]
    else
      var index := ScanIndex(tx, lines[..|lines| - 1]);
      var text := lines[|lines| - 1];
      var names := DirectiveSet(tx, text);
      if names.None? then index
      else
        var own := AddNolint(index, |lines|, names.value);
        if "//" <= tx.trim(text) then AddNolint(own, |lines| + 1, names.value) else own
  }

  predicate Covers(index: Index, line: int, linter: string) { Silences(At(index, line), linter) }

  /** The line's own directive names the linter, or an own-line directive just above does. */
  ghost predicate DirectiveCovers(tx: Text, lines: seq<string>, line: int, linter: string) {
    || (1 <= line <= |lines| && Names(tx, lines[line - 1], linter))
    || (2 <= line <= |lines| + 1 && OwnLine(tx, lines[line - 2]) && Names(tx, lines[line - 2], linter))
  }

  /** A line is covered exactly when its own directive, or an own-line one just above it, names the
      linter or all. */
  lemma {:induction false} IndexIsExact(tx: Text, lines: seq<string>, line: int, linter: string)
    ensures Covers(ScanIndex(tx, lines), line, linter) <==> DirectiveCovers(tx, lines, line, linter)
    decreases |lines|
  {
    if lines != [] {
      IndexIsExact(tx, lines[..|lines| - 1], line, linter);
      DirectiveNames(tx, lines[|lines| - 1], linter);
    }
  }

  /** `scanNolint`, its set built name by name. */
  method ScanNolint(tx: Text, lines: seq<string>) returns (out: Index)
    ensures out == ScanIndex(tx, lines)
  {
    out := map[];
    for i := 0 to |lines|
      invariant out == ScanIndex(tx, lines[..i])
    {
      assert lines[..i + 1][..i] == lines[..i];
      var text := lines[i];
      var m := tx.directive(text);
      if m.Some? {
        var names := tx.trim(m.value);
        var silenced := {"*"};
        if names != "" {
          silenced := CollectNames(tx, SplitComma(names));
        }
        out := AddNolint(out, i + 1, silenced);
        if "//" <= tx.trim(text) {
          out := AddNolint(out, i + 2, silenced);
        }
      }
    }
    assert lines[..|lines|] == lines;
  }

  method CollectNames(tx: Text, pieces: seq<string>) returns (names: set<string>)
    ensures names == NameSet(tx, pieces)
  {
    names := {};
    for i := 0 to |pieces|
      invariant names == NameSet(tx, pieces[..i])
    {
      assert pieces[..i + 1][..i] == pieces[..i];
      var n := tx.trim(pieces[i]);
      if n == "" {
      } else if n == "all" {
        names := names + {"*"};
      } else {
        names := names + {n};
      }
    }
    assert pieces[..|pieces|] == pieces;
  }

  // ---------------------------------------------------------------- generated files

  const GENERATED_SCAN_LINES := 200

  predicate MarksGenerated(tx: Text, mode: Mode, line: string) {
    tx.strictMark(tx.trim(line)) || (mode == Lax && OwnLine(tx, line) && tx.laxMark(tx.trim(line)))
  }

  /** Some line among the first two hundred carries a marker. */
  predicate Generated(tx: Text, mode: Mode, lines: seq<string>) {
    exists i :: 0 <= i < |lines| && i < 200 && MarksGenerated(tx, mode, lines[i])
  }

  method DetectGenerated(tx: Text, mode: Mode, lines: seq<string>) returns (g: bool)
    ensures g == Generated(tx, mode, lines)
  {
    var i := 0;
    while i < GENERATED_SCAN_LINES && i < |lines|
      invariant 0 <= i <= |lines|
      invariant forall j :: 0 <= j < i ==> !MarksGenerated(tx, mode, lines[j])
    {
      var trimmed := tx.trim(lines[i]);
      if tx.strictMark(trimmed) {
        return true;
      }
      if mode == Lax && "//" <= trimmed && tx.laxMark(trimmed) {
        return true;
      }
      i := i + 1;
    }
    return false;
  }

  // ---------------------------------------------------------------- the verdict without caches

  datatype Rule = Rule(
    linters: set<string>, path: Option<string -> bool>, pathExcept: Option<string -> bool>, text: Option<string -> bool>)

  datatype Config = Config(
    generated: Mode, paths: seq<string -> bool>, pathsExcept: seq<string -> bool>, excludes: seq<Rule>)

  datatype Finding = Finding(linter: string, file: string, line: int, msg: string)

  predicate RuleHits(r: Rule, f: Finding) {
    && (r.linters == {} || f.linter in r.linters)
    && (r.path.Some? ==> r.path.value(f.file))
    && (r.pathExcept.Some? ==> !r.pathExcept.value(f.file))
    && (r.text.Some? ==> r.text.value(f.msg))
  }

  /** The filters that need no file: whole-file paths, then the exclusion rules. */
  predicate Filtered(cfg: Config, f: Finding) {
    || (exists i :: 0 <= i < |cfg.paths| && cfg.paths[i](f.file))
    || (cfg.pathsExcept != [] && forall i :: 0 <= i < |cfg.pathsExcept| ==> !cfg.pathsExcept[i](f.file))
    || (exists i :: 0 <= i < |cfg.excludes| && RuleHits(cfg.excludes[i], f))
  }

  /** The laws of a rule, which fix it: a blank rule hits everything, and each condition it has narrows
      it on its own. */
  lemma RuleLaws(r: Rule, f: Finding, linters: set<string>, re: string -> bool)
    ensures RuleHits(Rule({}, None, None, None), f)
    ensures linters != {} && r.linters == {}
            ==> (RuleHits(r.(linters := linters), f) <==> RuleHits(r, f) && f.linter in linters)
    ensures r.path.None? ==> (RuleHits(r.(path := Some(re)), f) <==> RuleHits(r, f) && re(f.file))
    ensures r.pathExcept.None? ==> (RuleHits(r.(pathExcept := Some(re)), f) <==> RuleHits(r, f) && !re(f.file))
    ensures r.text.None? ==> (RuleHits(r.(text := Some(re)), f) <==> RuleHits(r, f) && re(f.msg))
  {
  }

  /** The laws of the filters: none drops nothing, one more path or rule drops what it matches, and
      the first `pathsExcept` drops what it does not match while each further one spares what it does. */
  lemma FilterLaws(cfg: Config, f: Finding, re: string -> bool, rule: Rule)
    ensures !Filtered(Config(cfg.generated, [], [], []), f)
    ensures Filtered(cfg.(paths := cfg.paths + [re]), f) <==> Filtered(cfg, f) || re(f.file)
    ensures Filtered(cfg.(excludes := cfg.excludes + [rule]), f) <==> Filtered(cfg, f) || RuleHits(rule, f)
    ensures Filtered(cfg.(pathsExcept := [re]), f) <==> Filtered(cfg.(pathsExcept := []), f) || !re(f.file)
    ensures re(f.file) ==> (Filtered(cfg.(pathsExcept := cfg.pathsExcept + [re]), f)
                            <==> Filtered(cfg.(pathsExcept := []), f))
  {
    var p, e, x := cfg.paths + [re], cfg.pathsExcept + [re], cfg.excludes + [rule];
    assert p[|cfg.paths|] == re && (forall i :: 0 <= i < |cfg.paths| ==> p[i] == cfg.paths[i]);
    assert e[|cfg.pathsExcept|] == re;
    assert x[|cfg.excludes|] == rule && (forall i :: 0 <= i < |cfg.excludes| ==> x[i] == cfg.excludes[i]);
    assert [re][0] == re;
  }

  /** What `suppressed` decides, with every file read afresh. */
  ghost predicate Dropped(tx: Text, cfg: Config, files: Files, f: Finding) {
    || (cfg.generated != Disable && Generated(tx, cfg.generated, Lines(files, f.file)))
    || Filtered(cfg, f)
    || DirectiveCovers(tx, Lines(files, f.file), f.line, f.linter)
  }

  // ---------------------------------------------------------------- concurrent reporters

  /** Which of the two maps a critical section works on. */
  datatype Cache = Gen | Nolint

  /** An entry of either map. */
  datatype Key = Key(cache: Cache, file: string)

  datatype Found = IsGen(generated: bool) | Directives(index: Index)

  /** What scanning the file for an entry gives. */
  function ScanOf(tx: Text, mode: Mode, files: Files, k: Key): Found {
    match k.cache
    case Gen => IsGen(Generated(tx, mode, Lines(files, k.file)))
    case Nolint => Directives(ScanIndex(tx, Lines(files, k.file)))
  }

  /** Where a reporter is in `suppressed`. From `Locked` to `Ready` it is inside a critical section:
      about to look up, to scan after a miss, to store what it scanned, and to unlock. */
  datatype Pc =
    | Entered
    | Waiting(cache: Cache)
    | Locked(cache: Cache)
    | Missed(cache: Cache)
    | Scanned(cache: Cache, found: Found)
    | Ready(cache: Cache, found: Found)
    | Unlocked(cache: Cache, found: Found)
    | Filtering
    | Decided(dropped: bool)

  predicate Inside(pc: Pc) { pc.Locked? || pc.Missed? || pc.Scanned? || pc.Ready? }

  /** About to read or write one of the maps. */
  predicate TouchesMap(pc: Pc) { pc.Locked? || pc.Scanned? }

  datatype Reporter = Reporter(finding: Finding, pc: Pc)

  /** The two maps as one, how often each entry was scanned for, who holds the mutex, and the
      reporters. */
  datatype State = State(
    entries: map<Key, Found>, scans: multiset<Key>, owner: Option<nat>, reporters: seq<Reporter>)

  const INIT := State(map[], multiset{}, None, [])

  /** A new finding is reported, or reporter `r` takes its next step. */
  datatype Event = Report(finding: Finding) | Advance(r: nat)

  predicate Enabled(s: State, e: Event) {
    match e
    case Report(_) => true
    case Advance(r) =>
      && r < |s.reporters| && !s.reporters[r].pc.Decided?
      && (s.reporters[r].pc.Waiting? ==> s.owner.None?)
  }

  function SetPc(s: State, r: nat, pc: Pc): State
    requires r < |s.reporters|
  {
    s.(reporters := s.reporters[r := s.reporters[r].(pc := pc)])
  }

  function KeyOf(r: Reporter, c: Cache): Key { Key(c, r.finding.file) }

  /** What follows the unlock: a generated file is dropped at once, an index is read. */
  function Continue(f: Finding, found: Found): Pc {
    match found
    case IsGen(g) => if g then Decided(true) else Filtering
    case Directives(index) => Decided(Covers(index, f.line, f.linter))
  }

  function Next(tx: Text, cfg: Config, files: Files, s: State, r: nat): State
    requires Enabled(s, Advance(r))
  {
    var x := s.reporters[r];
    match x.pc
    case Entered => SetPc(s, r, if cfg.generated == Disable then Filtering else Waiting(Gen))
    case Waiting(c) => SetPc(s, r, Locked(c)).(owner := Some(r))
    case Locked(c) => SetPc(s, r, if KeyOf(x, c) in s.entries then Ready(c, s.entries[KeyOf(x, c)]) else Missed(c))
    case Missed(c) =>
      SetPc(s, r, Scanned(c, ScanOf(tx, cfg.generated, files, KeyOf(x, c)))).(scans := s.scans + multiset{KeyOf(x, c)})
    case Scanned(c, v) => SetPc(s, r, Ready(c, v)).(entries := s.entries[KeyOf(x, c) := v])
    case Ready(c, v) => SetPc(s, r, Unlocked(c, v)).(owner := None)
    case Unlocked(_, v) => SetPc(s, r, Continue(x.finding, v))
    case Filtering => SetPc(s, r, if Filtered(cfg, x.finding) then Decided(true) else Waiting(Nolint))
  }

  function Apply(tx: Text, cfg: Config, files: Files, s: State, e: Event): State
    requires Enabled(s, e)
  {
    match e
    case Report(f) => s.(reporters := s.reporters + [Reporter(f, Entered)])
    case Advance(r) => Next(tx, cfg, files, s, r)
  }

  predicate IsRun(tx: Text, cfg: Config, files: Files, s: State, es: seq<Event>)
    decreases |es|
  {
    es == [] || (Enabled(s, es[0]) && IsRun(tx, cfg, files, Apply(tx, cfg, files, s, es[0]), es[1..]))
  }

  function Run(tx: Text, cfg: Config, files: Files, s: State, es: seq<Event>): State
    requires IsRun(tx, cfg, files, s, es)
    decreases |es|
  {
    if es == [] then s else Run(tx, cfg, files, Apply(tx, cfg, files, s, es[0]), es[1..])
  }

  // ---------------------------------------------------------------- what the mutex gives

  /** Inside a critical section is who holds the mutex. */
  ghost predicate OwnerOk(s: State) {
    && (s.owner.Some? ==> s.owner.value < |s.reporters|)
    && forall r: nat :: r < |s.reporters| ==> (Inside(s.reporters[r].pc) <==> s.owner == Some(r))
  }

  ghost predicate EntriesOk(tx: Text, cfg: Config, files: Files, s: State) {
    forall k :: k in s.entries ==> s.entries[k] == ScanOf(tx, cfg.generated, files, k)
  }

  /** A missed entry is still missing, and a scan made is not stored twice. */
  ghost predicate MissOk(s: State) {
    forall r :: 0 <= r < |s.reporters| && (s.reporters[r].pc.Missed? || s.reporters[r].pc.Scanned?)
                ==> KeyOf(s.reporters[r], s.reporters[r].pc.cache) !in s.entries
  }

  /** The holder of the mutex has scanned for `k` and not stored it yet. */
  predicate InFlight(s: State, k: Key) {
    && s.owner.Some? && s.owner.value < |s.reporters|
    && var x := s.reporters[s.owner.value];
       x.pc.Scanned? && KeyOf(x, x.pc.cache) == k
  }

  /** Every scan made an entry, or is about to. */
  ghost predicate ScansOk(s: State) {
    forall k :: s.scans[k] == (if k in s.entries then 1 else 0) + (if InFlight(s, k) then 1 else 0)
  }

  ghost predicate PassedGenerated(tx: Text, cfg: Config, files: Files, f: Finding) {
    cfg.generated != Disable ==> !Generated(tx, cfg.generated, Lines(files, f.file))
  }

  /** What a reporter has found out by the time it works on a map. */
  ghost predicate Reached(tx: Text, cfg: Config, files: Files, f: Finding, c: Cache) {
    match c
    case Gen => cfg.generated != Disable
    case Nolint => PassedGenerated(tx, cfg, files, f) && !Filtered(cfg, f)
  }

  ghost predicate ReporterOk(tx: Text, cfg: Config, files: Files, x: Reporter) {
    match x.pc
    case Entered => true
    case Waiting(c) => Reached(tx, cfg, files, x.finding, c)
    case Locked(c) => Reached(tx, cfg, files, x.finding, c)
    case Missed(c) => Reached(tx, cfg, files, x.finding, c)
    case Scanned(c, v) => Reached(tx, cfg, files, x.finding, c) && v == ScanOf(tx, cfg.generated, files, KeyOf(x, c))
    case Ready(c, v) => Reached(tx, cfg, files, x.finding, c) && v == ScanOf(tx, cfg.generated, files, KeyOf(x, c))
    case Unlocked(c, v) => Reached(tx, cfg, files, x.finding, c) && v == ScanOf(tx, cfg.generated, files, KeyOf(x, c))
    case Filtering => PassedGenerated(tx, cfg, files, x.finding)
    case Decided(d) => d == Dropped(tx, cfg, files, x.finding)
  }

  ghost predicate ReportersOk(tx: Text, cfg: Config, files: Files, s: State) {
    forall r :: 0 <= r < |s.reporters| ==> ReporterOk(tx, cfg, files, s.reporters[r])
  }

  ghost predicate Invariant(tx: Text, cfg: Config, files: Files, s: State) {
    && OwnerOk(s)
    && EntriesOk(tx, cfg, files, s)
    && MissOk(s)
    && ScansOk(s)
    && ReportersOk(tx, cfg, files, s)
  }

  lemma OwnerKept(tx: Text, cfg: Config, files: Files, s: State, r: nat)
    requires OwnerOk(s) && Enabled(s, Advance(r))
    ensures OwnerOk(Next(tx, cfg, files, s, r))
  {
  }

  lemma EntriesKept(tx: Text, cfg: Config, files: Files, s: State, r: nat)
    requires EntriesOk(tx, cfg, files, s) && ReportersOk(tx, cfg, files, s) && Enabled(s, Advance(r))
    ensures EntriesOk(tx, cfg, files, Next(tx, cfg, files, s, r))
  {
    assert ReporterOk(tx, cfg, files, s.reporters[r]);
  }

  /** Only the holder of the mutex stores, so nobody else's miss is filled behind its back. */
  lemma MissKept(tx: Text, cfg: Config, files: Files, s: State, r: nat)
    requires OwnerOk(s) && MissOk(s) && Enabled(s, Advance(r))
    ensures MissOk(Next(tx, cfg, files, s, r))
  {
    var s' := Next(tx, cfg, files, s, r);
    forall q: nat | q < |s'.reporters| && (s'.reporters[q].pc.Missed? || s'.reporters[q].pc.Scanned?)
      ensures KeyOf(s'.reporters[q], s'.reporters[q].pc.cache) !in s'.entries
    {
      if q != r {
        assert s.owner == Some(q) && s'.entries == s.entries;
      }
    }
  }

  /** A scan is counted when it is made and becomes an entry when it is stored. */
  lemma ScansKept(tx: Text, cfg: Config, files: Files, s: State, r: nat)
    requires OwnerOk(s) && MissOk(s) && ScansOk(s) && Enabled(s, Advance(r))
    ensures ScansOk(Next(tx, cfg, files, s, r))
  {
    var s' := Next(tx, cfg, files, s, r);
    var x := s.reporters[r];
    forall k ensures s'.scans[k] == (if k in s'.entries then 1 else 0) + (if InFlight(s', k) then 1 else 0) {
      if x.pc.Missed? {
        assert s.owner == Some(r) && !InFlight(s, k);
        assert InFlight(s', k) <==> k == KeyOf(x, x.pc.cache);
      } else if x.pc.Scanned? {
        assert s.owner == Some(r) && !InFlight(s', k);
        assert InFlight(s, k) <==> k == KeyOf(x, x.pc.cache);
      } else {
        InFlightElsewhere(tx, cfg, files, s, r, k);
      }
    }
  }

  lemma InFlightElsewhere(tx: Text, cfg: Config, files: Files, s: State, r: nat, k: Key)
    requires OwnerOk(s) && Enabled(s, Advance(r)) && !s.reporters[r].pc.Missed? && !s.reporters[r].pc.Scanned?
    ensures InFlight(Next(tx, cfg, files, s, r), k) <==> InFlight(s, k)
  {
  }

  /** After the unlock the reporter goes by its own copy, which is what a fresh scan would give. */
  lemma ContinueOk(tx: Text, cfg: Config, files: Files, x: Reporter)
    requires x.pc.Unlocked? && ReporterOk(tx, cfg, files, x)
    ensures ReporterOk(tx, cfg, files, x.(pc := Continue(x.finding, x.pc.found)))
  {
    if x.pc.cache == Nolint {
      IndexIsExact(tx, Lines(files, x.finding.file), x.finding.line, x.finding.linter);
    }
  }

  lemma ReporterKept(tx: Text, cfg: Config, files: Files, s: State, r: nat)
    requires EntriesOk(tx, cfg, files, s) && Enabled(s, Advance(r)) && ReporterOk(tx, cfg, files, s.reporters[r])
    ensures ReporterOk(tx, cfg, files, Next(tx, cfg, files, s, r).reporters[r])
  {
    var x := s.reporters[r];
    if x.pc.Unlocked? {
      ContinueOk(tx, cfg, files, x);
    }
  }

  lemma OthersStay(tx: Text, cfg: Config, files: Files, s: State, r: nat)
    requires Enabled(s, Advance(r))
    ensures |Next(tx, cfg, files, s, r).reporters| == |s.reporters|
    ensures forall q :: 0 <= q < |s.reporters| && q != r ==> Next(tx, cfg, files, s, r).reporters[q] == s.reporters[q]
  {
  }

  lemma InvariantKept(tx: Text, cfg: Config, files: Files, s: State, e: Event)
    requires Invariant(tx, cfg, files, s) && Enabled(s, e)
    ensures Invariant(tx, cfg, files, Apply(tx, cfg, files, s, e))
  {
    match e {
      case Report(f) =>
        ReportKeeps(tx, cfg, files, s, f);
      case Advance(r) =>
        OwnerKept(tx, cfg, files, s, r);
        EntriesKept(tx, cfg, files, s, r);
        MissKept(tx, cfg, files, s, r);
        ScansKept(tx, cfg, files, s, r);
        ReporterKept(tx, cfg, files, s, r);
        OthersStay(tx, cfg, files, s, r);
    }
  }

  lemma ReportKeeps(tx: Text, cfg: Config, files: Files, s: State, f: Finding)
    requires Invariant(tx, cfg, files, s)
    ensures Invariant(tx, cfg, files, Apply(tx, cfg, files, s, Report(f)))
  {
    var s' := Apply(tx, cfg, files, s, Report(f));
    assert forall k :: InFlight(s', k) <==> InFlight(s, k);
  }

  lemma {:induction false} RunKeepsInvariant(tx: Text, cfg: Config, files: Files, s: State, es: seq<Event>)
    requires Invariant(tx, cfg, files, s) && IsRun(tx, cfg, files, s, es)
    ensures Invariant(tx, cfg, files, Run(tx, cfg, files, s, es))
    decreases |es|
  {
    if es != [] {
      InvariantKept(tx, cfg, files, s, es[0]);
      RunKeepsInvariant(tx, cfg, files, Apply(tx, cfg, files, s, es[0]), es[1..]);
    }
  }

  /** No two reporters are ever at a map access, or anywhere in a critical section, together. */
  lemma MapsAreNeverRaced(tx: Text, cfg: Config, files: Files, es: seq<Event>, q: nat, r: nat)
    requires IsRun(tx, cfg, files, INIT, es) && q < r < |Run(tx, cfg, files, INIT, es).reporters|
    ensures var s := Run(tx, cfg, files, INIT, es);
            && !(Inside(s.reporters[q].pc) && Inside(s.reporters[r].pc))
            && !(TouchesMap(s.reporters[q].pc) && TouchesMap(s.reporters[r].pc))
  {
    RunKeepsInvariant(tx, cfg, files, INIT, es);
  }

  /** Caches agree with direct computation: however reporters interleave, each verdict is the one an
      uncached decision would give, and no file is scanned twice for the same cache. */
  lemma CachesAreInvisible(tx: Text, cfg: Config, files: Files, es: seq<Event>)
    requires IsRun(tx, cfg, files, INIT, es)
    ensures var s := Run(tx, cfg, files, INIT, es);
            && (forall r :: 0 <= r < |s.reporters| && s.reporters[r].pc.Decided?
                            ==> s.reporters[r].pc.dropped == Dropped(tx, cfg, files, s.reporters[r].finding))
            && (forall k :: s.scans[k] <= 1)
  {
    RunKeepsInvariant(tx, cfg, files, INIT, es);
    var s := Run(tx, cfg, files, INIT, es);
    forall r | 0 <= r < |s.reporters| && s.reporters[r].pc.Decided?
      ensures s.reporters[r].pc.dropped == Dropped(tx, cfg, files, s.reporters[r].finding)
    {
      assert ReporterOk(tx, cfg, files, s.reporters[r]);
    }
    ScannedOnce(s);
  }

  lemma ScannedOnce(s: State)
    requires ScansOk(s) && MissOk(s)
    ensures forall k :: s.scans[k] <= 1
  {
    forall k ensures s.scans[k] <= 1 {
      if InFlight(s, k) {
        var x := s.reporters[s.owner.value];
        assert KeyOf(x, x.pc.cache) !in s.entries;
      }
    }
  }

  // ---------------------------------------------------------------- the mutex never blocks for good

  /** The steps a reporter has left, at most. */
  function Rank(pc: Pc): nat {
    match pc
    case Entered => 14
    case Waiting(c) => Base(c) + 6
    case Locked(c) => Base(c) + 5
    case Missed(c) => Base(c) + 4
    case Scanned(c, _) => Base(c) + 3
    case Ready(c, _) => Base(c) + 2
    case Unlocked(_, v) => if v.IsGen? then 8 else 1
    case Filtering => 7
    case Decided(_) => 0
  }

  function Base(c: Cache): nat { if c == Gen then 7 else 0 }

  function RankAll(rs: seq<Reporter>): nat {
    if rs == [] then 0 else Rank(rs[0].pc) + RankAll(rs[1..])
  }

  lemma {:induction false} RankUpdate(rs: seq<Reporter>, r: nat, x: Reporter)
    requires r < |rs|
    ensures RankAll(rs[r := x]) == RankAll(rs) - Rank(rs[r].pc) + Rank(x.pc)
  {
    if r == 0 {
      assert rs[r := x][1..] == rs[1..];
    } else {
      RankUpdate(rs[1..], r - 1, x);
      assert rs[r := x][1..] == rs[1..][r - 1 := x];
    }
  }

  lemma RankFalls(tx: Text, cfg: Config, files: Files, s: State, r: nat)
    requires ReportersOk(tx, cfg, files, s) && Enabled(s, Advance(r))
    ensures RankAll(Next(tx, cfg, files, s, r).reporters) < RankAll(s.reporters)
  {
    var s' := Next(tx, cfg, files, s, r);
    PcRankFalls(tx, cfg, files, s, r);
    RankUpdate(s.reporters, r, s'.reporters[r]);
    assert s'.reporters == s.reporters[r := s'.reporters[r]];
  }

  lemma PcRankFalls(tx: Text, cfg: Config, files: Files, s: State, r: nat)
    requires ReportersOk(tx, cfg, files, s) && Enabled(s, Advance(r))
    ensures Rank(Next(tx, cfg, files, s, r).reporters[r].pc) < Rank(s.reporters[r].pc)
  {
    assert ReporterOk(tx, cfg, files, s.reporters[r]);
  }

  lemma {:induction false} DecidingBounded(tx: Text, cfg: Config, files: Files, s: State, es: seq<Event>)
    requires Invariant(tx, cfg, files, s) && IsRun(tx, cfg, files, s, es) && (forall e :: e in es ==> e.Advance?)
    ensures |es| + RankAll(Run(tx, cfg, files, s, es).reporters) <= RankAll(s.reporters)
    decreases |es|
  {
    if es != [] {
      InvariantKept(tx, cfg, files, s, es[0]);
      RankFalls(tx, cfg, files, s, es[0].r);
      DecidingBounded(tx, cfg, files, Apply(tx, cfg, files, s, es[0]), es[1..]);
    }
  }

  /** Once findings stop coming, every schedule of the reporters is bounded, and where none of them
      can move, each has its verdict: nobody waits for the mutex for good. */
  lemma EveryFindingIsDecided(tx: Text, cfg: Config, files: Files, s: State, es: seq<Event>)
    requires Invariant(tx, cfg, files, s) && IsRun(tx, cfg, files, s, es) && (forall e :: e in es ==> e.Advance?)
    ensures |es| <= RankAll(s.reporters)
    ensures (forall r :: !Enabled(Run(tx, cfg, files, s, es), Advance(r)))
            ==> forall r :: 0 <= r < |Run(tx, cfg, files, s, es).reporters|
                            ==> Run(tx, cfg, files, s, es).reporters[r].pc.Decided?
  {
    DecidingBounded(tx, cfg, files, s, es);
    RunKeepsInvariant(tx, cfg, files, s, es);
    var end := Run(tx, cfg, files, s, es);
    if forall r :: !Enabled(end, Advance(r)) {
      if end.owner.Some? {
        assert Enabled(end, Advance(end.owner.value));
      }
      forall r: nat | r < |end.reporters| ensures end.reporters[r].pc.Decided? {
        assert !Enabled(end, Advance(r));
      }
    }
  }

  // ---------------------------------------------------------------- the shared suppressor

  /** The caches as the code holds them, and what one reporter computes from them. */
  class Shared {
    const tx: Text
    const cfg: Config
    const files: Files
    var nolint: map<string, Index>
    var genCache: map<string, bool>

    ghost predicate Valid()
      reads this
    {
      && (forall f :: f in nolint ==> nolint[f] == ScanIndex(tx, Lines(files, f)))
      && (forall f :: f in genCache ==> genCache[f] == Generated(tx, cfg.generated, Lines(files, f)))
    }

    constructor (tx: Text, cfg: Config, files: Files)
      ensures Valid() && this.tx == tx && this.cfg == cfg && this.files == files
    {
      this.tx, this.cfg, this.files := tx, cfg, files;
      nolint, genCache := map[], map[];
    }

    method IsGenerated(file: string) returns (g: bool)
      requires Valid()
      modifies this`genCache
      ensures Valid() && g == Generated(tx, cfg.generated, Lines(files, file))
      ensures genCache == if file in old(genCache) then old(genCache) else old(genCache)[file := g]
    {
      if file in genCache {
        return genCache[file];
      }
      g := DetectGenerated(tx, cfg.generated, Lines(files, file));
      genCache := genCache[file := g];
    }

    method NolintCovers(f: Finding) returns (covered: bool)
      requires Valid()
      modifies this`nolint
      ensures Valid() && covered == DirectiveCovers(tx, Lines(files, f.file), f.line, f.linter)
      ensures f.file in nolint && nolint == old(nolint)[f.file := nolint[f.file]]
    {
      if f.file !in nolint {
        var index := ScanNolint(tx, Lines(files, f.file));
        nolint := nolint[f.file := index];
      }
      IndexIsExact(tx, Lines(files, f.file), f.line, f.linter);
      var byLine := nolint[f.file];
      if f.line !in byLine {
        return false;
      }
      var names := byLine[f.line];
      return "*" in names || f.linter in names;
    }

    /** `suppressed`: whole-file filters, exclusion rules, then directives. */
    method Suppressed(f: Finding) returns (dropped: bool)
      requires Valid()
      modifies this
      ensures Valid() && dropped == Dropped(tx, cfg, files, f)
    {
      if cfg.generated != Disable {
        var g := IsGenerated(f.file);
        if g {
          return true;
        }
      }
      var hit := Matches(cfg.paths, f.file);
      if hit {
        return true;
      }
      if |cfg.pathsExcept| > 0 {
        var matched := Matches(cfg.pathsExcept, f.file);
        if !matched {
          return true;
        }
      }
      var excluded := MatchesRule(cfg.excludes, f);
      if excluded {
        return true;
      }
      dropped := NolintCovers(f);
    }
  }

  method Matches(res: seq<string -> bool>, file: string) returns (hit: bool)
    ensures hit == exists i :: 0 <= i < |res| && res[i](file)
  {
    for i := 0 to |res|
      invariant forall j :: 0 <= j < i ==> !res[j](file)
    {
      if res[i](file) {
        return true;
      }
    }
    return false;
  }

  method MatchesRule(rules: seq<Rule>, f: Finding) returns (hit: bool)
    ensures hit == exists i :: 0 <= i < |rules| && RuleHits(rules[i], f)
  {
    for i := 0 to |rules|
      invariant forall j :: 0 <= j < i ==> !RuleHits(rules[j], f)
    {
      var er := rules[i];
      if er.linters != {} && f.linter !in er.linters {
        continue;
      }
      if er.path.Some? && !er.path.value(f.file) {
        continue;
      }
      if er.pathExcept.Some? && er.pathExcept.value(f.file) {
        continue;
      }
      if er.text.Some? && !er.text.value(f.msg) {
        continue;
      }
      return true;
    }
    return false;
  }
}
