/**
 * `migrate_frigate_config`: brings a loaded config up to the current
 * version through a chain of steps, each gated by a string comparison of
 * the running version with the step's target. File access is modelled by
 * its inputs (whether the file is writable, what it held, which export
 * files exist) and its outputs (the configs dumped, the files renamed).
 */
module ConfigMigration {
  import opened Wrappers
  import opened Json
  import opened MigrationSteps
  import Text

  const CurrentVersion: string := "0.18-0"

  /** The versions the steps migrate to, in chain order. */
  const Targets: seq<string> := ["0.14", "0.15-0", "0.15-1", "0.16-0", "0.17-0", "0.18-0"]

  /** Python's `a < b` on strings: the first differing character decides, and a proper prefix comes first. */
  predicate Below(a: string, b: string)
    decreases |a|
  {
    if a == [] then b != []
    else if b == [] then false
    else if a[0] != b[0] then a[0] < b[0]
    else Below(a[1..], b[1..])
  }

  lemma {:induction false} BelowTransitive(a: string, b: string, c: string)
    requires Below(a, b) && Below(b, c)
    ensures Below(a, c)
    decreases |a|
  {
    if a != [] && b != [] && c != [] && a[0] == b[0] && b[0] == c[0] {
      BelowTransitive(a[1..], b[1..], c[1..]);
    }
  }

  lemma {:induction false} BelowIrreflexive(a: string)
    ensures !Below(a, a)
    decreases |a|
  {
    if a != [] {
      BelowIrreflexive(a[1..]);
    }
  }

  /** Each target is below the next. */
  lemma Consecutive(i: nat)
    requires i + 1 < |Targets|
    ensures Below(Targets[i], Targets[i + 1])
  {
  }

  /** Step `i` of the chain. */
  function Apply(i: nat, config: JSON, str: JSON -> string): Step {
    if i == 0 then Migrate014(config)
    else if i == 1 then Migrate0150(config)
    else if i == 2 then Migrate0151(config)
    else if i == 3 then Migrate0160(config, str)
    else if i == 4 then Migrate0170(config)
    else Migrate0180(config)
  }

  /** The chain's steps, `str` fixed. */
  function Steps(str: JSON -> string): (nat, JSON) -> Step {
    (i: nat, config: JSON) => Apply(i, config, str)
  }

  /** The config's version as text, "0.13" when absent; a value that is not a string is rendered. */
  function VersionOf(config: JSON, str: JSON -> string): string {
    match Get(config, "version")
    case None => "0.13"
    case Some(v) => if v.Str? then v.s else str(v)
  }

  /**
   * The steps from `i` on, starting at the running `version`: a step runs
   * when the version is below its target, dumps what it returns, and sets
   * the version to its target. The next step is handed the dict as this
   * step left it in place, or, when `threaded`, the dict this step returned.
   */
  function Run(i: nat, version: string, config: JSON, step: (nat, JSON) -> Step, threaded: bool): seq<(string, JSON)>
    requires i <= |Targets|
    decreases |Targets| - i
  {
    if i == |Targets| then []
    else if Below(version, Targets[i]) then
      var s := step(i, config);
      [(Targets[i], s.written)] + Run(i + 1, Targets[i], if threaded then s.written else s.seen, step, threaded)
    else Run(i + 1, version, config, step, threaded)
  }

  /** The targets from `i` on that `version` is below. */
  function DueFrom(i: nat, version: string): (r: seq<string>)
    requires i <= |Targets|
    ensures forall t :: t in r ==> Below(version, t)
    decreases |Targets| - i
  {
    if i == |Targets| then []
    else (if Below(version, Targets[i]) then [Targets[i]] else []) + DueFrom(i + 1, version)
  }

  function Versions(writes: seq<(string, JSON)>): seq<string> {
    if writes == [] then [] else [writes[0].0] + Versions(writes[1..])
  }

  /** Every target from `i` on is due once the one at `i` is. */
  lemma {:induction false} AllDue(i: nat, version: string)
    requires i <= |Targets| && (i < |Targets| ==> Below(version, Targets[i]))
    ensures DueFrom(i, version) == Targets[i..]
    decreases |Targets| - i
  {
    if i + 1 < |Targets| {
      Consecutive(i);
      BelowTransitive(version, Targets[i], Targets[i + 1]);
    }
    if i < |Targets| {
      AllDue(i + 1, version);
    }
  }

  /** The targets are in strictly increasing string order. */
  lemma TargetsAscending()
    ensures forall i, j :: 0 <= i < j < |Targets| ==> Below(Targets[i], Targets[j])
  {
    forall i, j | 0 <= i < j < |Targets| ensures Below(Targets[i], Targets[j]) {
      Consecutive(i);
      AllDue(i + 1, Targets[i]);
      assert Targets[j] in Targets[i + 1..];
    }
  }

  lemma VersionsCons(w: (string, JSON), rest: seq<(string, JSON)>)
    ensures Versions([w] + rest) == [w.0] + Versions(rest)
  {
    assert ([w] + rest)[1..] == rest;
  }

  /**
   * A step runs exactly when the version the config started at is below
   * its target, and the steps run in chain order, each once.
   */
  lemma {:induction false} StepsRunWhenBelow(i: nat, version: string, config: JSON, step: (nat, JSON) -> Step, threaded: bool)
    requires i <= |Targets|
    ensures Versions(Run(i, version, config, step, threaded)) == DueFrom(i, version)
    decreases |Targets| - i, 1
  {
    if i < |Targets| {
      if Below(version, Targets[i]) {
        DueStepRuns(i, version, config, step, threaded);
      } else {
        StepsRunWhenBelow(i + 1, version, config, step, threaded);
      }
    }
  }

  /** The case of `StepsRunWhenBelow` where step `i` is due. */
  lemma {:induction false} DueStepRuns(i: nat, version: string, config: JSON, step: (nat, JSON) -> Step, threaded: bool)
    requires i < |Targets| && Below(version, Targets[i])
    ensures Versions(Run(i, version, config, step, threaded)) == DueFrom(i, version)
    decreases |Targets| - i, 0
  {
    var s := step(i, config);
    var next := if threaded then s.written else s.seen;
    var rest := Run(i + 1, Targets[i], next, step, threaded);
    assert Run(i, version, config, step, threaded) == [(Targets[i], s.written)] + rest;
    StepsRunWhenBelow(i + 1, Targets[i], next, step, threaded);
    VersionsCons((Targets[i], s.written), rest);
    DueAfter(i, version);
  }

  /** Past a due target, the same targets are due from it as from the version below it. */
  lemma DueAfter(i: nat, version: string)
    requires i < |Targets| && Below(version, Targets[i])
    ensures DueFrom(i + 1, version) == DueFrom(i + 1, Targets[i])
  {
    if i + 1 < |Targets| {
      Consecutive(i);
      BelowTransitive(version, Targets[i], Targets[i + 1]);
    }
    AllDue(i + 1, Targets[i]);
    AllDue(i + 1, version);
  }

  /** Nothing is below the current version, so a config at it is never migrated. */
  lemma NothingDueAtCurrent()
    ensures DueFrom(0, CurrentVersion) == []
  {
    TargetsAscending();
    BelowIrreflexive(CurrentVersion);
    forall i | 0 <= i < |Targets| ensures !Below(CurrentVersion, Targets[i]) {
      if Below(CurrentVersion, Targets[i]) {
        BelowTransitive(CurrentVersion, Targets[i], CurrentVersion);
      }
    }
    assert DueFrom(6, CurrentVersion) == [];
  }

  /** The export files the 0.14 step renames: each name holding `@`, to the name with `_` in its place. */
  function ExportRenames(files: seq<string>): (r: seq<(string, string)>)
    ensures forall p :: p in r ==> p.0 in files && '@' in p.0 && p.1 == Text.ReplaceChar(p.0, '@', '_')
    ensures forall f :: f in files && '@' in f ==> (f, Text.ReplaceChar(f, '@', '_')) in r
  {
    if files == [] then []
    else
      var front := ExportRenames(files[..|files| - 1]);
      var f := files[|files| - 1];
      assert forall g :: g in files ==> g in files[..|files| - 1] || g == f;
      if '@' in f then front + [(f, Text.ReplaceChar(f, '@', '_'))] else front
  }

  /** What one run of `migrate_frigate_config` does. */
  datatype Outcome =
    | ReadOnly
    | NotLoaded
    | AlreadyCurrent
      /** A backup was taken; each step's (version, config) was dumped in order, and export files were renamed. */
    | Migrated(writes: seq<(string, JSON)>, renames: seq<(string, string)>)

  /**
   * `migrate_frigate_config` on a file that is `writable` and held `loaded`;
   * `exportFiles` lists the export directory, None when it is missing.
   */
  function Migration(writable: bool, loaded: Option<JSON>, exportFiles: Option<seq<string>>, str: JSON -> string,
                     threaded: bool): Outcome
  {
    if !writable then ReadOnly
    else if loaded.None? then NotLoaded
    else
      var version := VersionOf(loaded.value, str);
      if version == CurrentVersion then AlreadyCurrent
      else
        var renames := if Below(version, Targets[0]) && exportFiles.Some? then ExportRenames(exportFiles.value) else [];
        Migrated(Run(0, version, loaded.value, Steps(str), threaded), renames)
  }

  /** One more step of the chain, when it is due. */
  lemma RunNext(i: nat, version: string, config: JSON, step: (nat, JSON) -> Step)
    requires i < |Targets|
    ensures Run(i, version, config, step, false)
            == if Below(version, Targets[i]) then
                 [(Targets[i], step(i, config).written)] + Run(i + 1, Targets[i], step(i, config).seen, step, false)
               else Run(i + 1, version, config, step, false)
  {
  }

  /**
   * `migrate_frigate_config` as written: every step is called on the same
   * `config` variable, which holds the loaded dict with the in-place edits
   * of the steps before.
   */
  method MigrateFrigateConfig(writable: bool, loaded: Option<JSON>, exportFiles: Option<seq<string>>, str: JSON -> string)
    returns (outcome: Outcome)
    ensures outcome == Migration(writable, loaded, exportFiles, str, false)
  {
    if !writable {
      return ReadOnly;
    }
    if loaded.None? {
      return NotLoaded;
    }
    var config := loaded.value;
    var previous := VersionOf(config, str);
    if previous == CurrentVersion {
      return AlreadyCurrent;
    }
    var writes, renames := RunChain(previous, config, Steps(str), exportFiles);
    outcome := Migrated(writes, renames);
  }

  /**
   * The chain loop of `migrate_frigate_config`, for any steps: each due step
   * is called on the `config` variable the previous steps left, its result
   * dumped, and the version moved to its target; the 0.14 step also renames
   * the export files.
   */
  method RunChain(start: string, loaded: JSON, step: (nat, JSON) -> Step, exportFiles: Option<seq<string>>)
    returns (writes: seq<(string, JSON)>, renames: seq<(string, string)>)
    ensures writes == Run(0, start, loaded, step, false)
    ensures renames == if Below(start, Targets[0]) && exportFiles.Some? then ExportRenames(exportFiles.value) else []
  {
    var config := loaded;
    var previous := start;
    writes := [];
    renames := [];
    for i := 0 to |Targets|
      invariant Run(0, start, loaded, step, false) == writes + Run(i, previous, config, step, false)
      invariant i == 0 ==> previous == start && renames == []
      invariant i > 0 ==> renames == if Below(start, Targets[0]) && exportFiles.Some? then ExportRenames(exportFiles.value) else []
    {
      var target := Targets[i];
      var due := Below(previous, target);
      RunNext(i, previous, config, step);
      if due {
        var s := step(i, config);
        writes := writes + [(target, s.written)];
        config := s.seen;
        previous := target;
        if i == 0 && exportFiles.Some? {
          renames := RenameExports(exportFiles.value);
        }
      }
    }
  }

  /** The export renaming loop of the 0.14 step. */
  method RenameExports(files: seq<string>) returns (renames: seq<(string, string)>)
    ensures renames == ExportRenames(files)
  {
    renames := [];
    for i := 0 to |files|
      invariant renames == ExportRenames(files[..i])
    {
      assert files[..i + 1][..i] == files[..i];
      if '@' !in files[i] {
        continue;
      }
      renames := renames + [(files[i], Text.ReplaceChar(files[i], '@', '_'))];
    }
    assert files[..|files|] == files;
  }

  // ------------------------------------------------------------ findings

  /** Steps after the first never touch the top-level `review` section, in what they return or in place. */
  ghost predicate KeepReview(step: (nat, JSON) -> Step) {
    forall i: nat, config: JSON :: 1 <= i < |Targets| ==>
      && Get(step(i, config).written, "review") == Get(config, "review")
      && Get(step(i, config).seen, "review") == Get(config, "review")
  }

  /** The chain's steps after 0.14 leave `review` alone. */
  lemma LaterStepsKeepReview(str: JSON -> string)
    ensures KeepReview(Steps(str))
  {
    forall i: nat, config: JSON | 1 <= i < |Targets|
      ensures Get(Steps(str)(i, config).written, "review") == Get(config, "review")
      ensures Get(Steps(str)(i, config).seen, "review") == Get(config, "review")
    {
      if i == 1 {
        KeepsReview0150(config);
      } else if i == 2 {
        KeepsReview0151(config);
      } else if i == 3 {
        KeepsReview0160(config, str);
      } else if i == 4 {
        KeepsReview0170(config);
      } else {
        KeepsReview0180(config);
      }
    }
  }

  /** A due step dumps its result ahead of the steps after it, and the next target is due after it. */
  lemma RunDue(i: nat, version: string, config: JSON, step: (nat, JSON) -> Step, threaded: bool)
    requires i < |Targets| && Below(version, Targets[i])
    ensures var s := step(i, config);
            Run(i, version, config, step, threaded)
            == [(Targets[i], s.written)] + Run(i + 1, Targets[i], if threaded then s.written else s.seen, step, threaded)
    ensures i + 1 < |Targets| ==> Below(Targets[i], Targets[i + 1])
  {
    if i + 1 < |Targets| {
      Consecutive(i);
    }
  }

  /** Step `i`'s instance of `KeepReview`. */
  lemma KeepReviewAt(step: (nat, JSON) -> Step, i: nat, config: JSON)
    requires KeepReview(step) && 1 <= i < |Targets|
    ensures Get(step(i, config).written, "review") == Get(config, "review")
    ensures Get(step(i, config).seen, "review") == Get(config, "review")
  {
  }

  /** The last of the dumps exists and holds `review` as `r`. */
  ghost predicate LastReview(writes: seq<(string, JSON)>, r: Option<JSON>) {
    writes != [] && Get(writes[|writes| - 1].1, "review") == r
  }

  /** The last dump after prepending one: the prepended one when it is alone. */
  lemma LastReviewCons(x: (string, JSON), rest: seq<(string, JSON)>, r: Option<JSON>)
    requires if rest == [] then Get(x.1, "review") == r else LastReview(rest, r)
    ensures LastReview([x] + rest, r)
  {
  }

  /** No steps are left after the last. */
  lemma RunEnd(version: string, config: JSON, step: (nat, JSON) -> Step, threaded: bool)
    ensures Run(|Targets|, version, config, step, threaded) == []
  {
  }

  /** One due step that leaves `review` alone, followed by no dumps or by dumps whose last holds `review` as the step's input did. */
  lemma DueStepKeepsReview(i: nat, version: string, config: JSON, step: (nat, JSON) -> Step, threaded: bool, rest: seq<(string, JSON)>)
    requires 1 <= i < |Targets| && Below(version, Targets[i])
    requires KeepReview(step)
    requires rest == Run(i + 1, Targets[i], if threaded then step(i, config).written else step(i, config).seen, step, threaded)
    requires rest == [] || LastReview(rest, Get(config, "review"))
    ensures LastReview(Run(i, version, config, step, threaded), Get(config, "review"))
  {
    RunDue(i, version, config, step, threaded);
    KeepReviewAt(step, i, config);
    LastReviewCons((Targets[i], step(i, config).written), rest, Get(config, "review"));
  }

  /** When every step from `i` on runs and none touches `review`, the last dump holds the `review` the dict handed to step `i` had. */
  lemma {:induction false} LastDumpKeepsReview(i: nat, version: string, config: JSON, step: (nat, JSON) -> Step, threaded: bool)
    requires 1 <= i < |Targets| && Below(version, Targets[i])
    requires KeepReview(step)
    ensures LastReview(Run(i, version, config, step, threaded), Get(config, "review"))
    decreases |Targets| - i
  {
    var target := Targets[i];
    var next := if threaded then step(i, config).written else step(i, config).seen;
    var rest := Run(i + 1, target, next, step, threaded);
    if i + 1 < |Targets| {
      assert Below(target, Targets[i + 1]) by {
        Consecutive(i);
      }
      LastDumpKeepsReview(i + 1, target, next, step, threaded);
      assert Get(next, "review") == Get(config, "review") by {
        KeepReviewAt(step, i, config);
      }
    } else {
      RunEnd(target, next, step, threaded);
    }
    DueStepKeepsReview(i, version, config, step, threaded, rest);
  }

  lemma {:induction false} VersionsLength(writes: seq<(string, JSON)>)
    ensures |Versions(writes)| == |writes|
  {
    if writes != [] {
      VersionsLength(writes[1..]);
    }
  }

  /** A version below 0.14 dumps once per step. */
  lemma AllStepsDump(version: string, config: JSON, step: (nat, JSON) -> Step, threaded: bool)
    requires Below(version, Targets[0])
    ensures |Run(0, version, config, step, threaded)| == |Targets|
  {
    var writes := Run(0, version, config, step, threaded);
    StepsRunWhenBelow(0, version, config, step, threaded);
    AllDue(0, version);
    VersionsLength(writes);
  }

  /** A version below 0.14 runs all six steps, and the last dump has the `review` of the dict handed to step 2. */
  lemma LastDumpAfterAllSteps(version: string, config: JSON, step: (nat, JSON) -> Step, threaded: bool)
    requires Below(version, Targets[0]) && KeepReview(step)
    ensures var writes := Run(0, version, config, step, threaded);
            var first := if threaded then step(0, config).written else step(0, config).seen;
            |writes| == |Targets| && Get(writes[|Targets| - 1].1, "review") == Get(first, "review")
  {
    var target := Targets[0];
    var first := if threaded then step(0, config).written else step(0, config).seen;
    AllStepsDump(version, config, step, threaded);
    assert Below(target, Targets[1]) by {
      Consecutive(0);
    }
    LastDumpKeepsReview(1, target, first, step, threaded);
    RunDue(0, version, config, step, threaded);
    LastReviewCons((target, step(0, config).written), Run(1, target, first, step, threaded), Get(first, "review"));
  }

  /** A config below 0.14 is not at the current version. */
  lemma BelowFirstNotCurrent(version: string)
    requires Below(version, Targets[0])
    ensures version != CurrentVersion
  {
    AllDue(0, version);
    assert Targets[5] in DueFrom(0, version);
    BelowIrreflexive(version);
  }

  /**
   * As written, a config from before 0.14 that has `record.events.required_zones`
   * and no `review` section loses its required zones: the 0.14 step removes
   * them from `record.events` in place but puts them into a `review`
   * section of its returned copy only, and the last dump has no `review`.
   */
  lemma ZonesLostAsWritten(config: JSON, exportFiles: Option<seq<string>>, str: JSON -> string)
    requires Below(VersionOf(config, str), Targets[0]) && Truthy(EventZones(config)) && !Has(config, "review")
    ensures var outcome := Migration(true, Some(config), exportFiles, str, false);
            && outcome.Migrated? && |outcome.writes| == |Targets|
            && Get(outcome.writes[|Targets| - 1].1, "review") == None
            && Get(Field(Field(Apply(0, config, str).seen, "record"), "events"), "required_zones") == None
  {
    BelowFirstNotCurrent(VersionOf(config, str));
    ZonesMovedBy014(config);
    LaterStepsKeepReview(str);
    LastDumpAfterAllSteps(VersionOf(config, str), config, Steps(str), false);
  }

  /**
   * Corrected: when each step is handed the previous step's result, the
   * same config ends with its zones in `review.alerts.required_zones`.
   */
  lemma ZonesKeptThreaded(config: JSON, exportFiles: Option<seq<string>>, str: JSON -> string)
    requires Below(VersionOf(config, str), Targets[0]) && Truthy(EventZones(config)) && !Has(config, "review")
    ensures var outcome := Migration(true, Some(config), exportFiles, str, true);
            && outcome.Migrated? && |outcome.writes| == |Targets|
            && Field(Field(Field(outcome.writes[|Targets| - 1].1, "review"), "alerts"), "required_zones") == EventZones(config)
  {
    BelowFirstNotCurrent(VersionOf(config, str));
    ZonesMovedBy014(config);
    LaterStepsKeepReview(str);
    LastDumpAfterAllSteps(VersionOf(config, str), config, Steps(str), true);
  }
}
