/** The static-file collector (healthlog/core/collector.py): copies or
    symlinks every file the finders list into the destination storage, the
    first file found for a destination path winning, skips targets that are
    not older than their source, and reports what it did in one summary
    line. The destination storage is a map from path to entry; the finders'
    listings are given as sequences of source files. */
module Collector {
  import opened Wrappers
  import Text
  import Seqs

  /** A file in the destination storage: its modification time in
      microseconds (`None` when the storage cannot tell), whether it is a
      symbolic link, and the source file it was made from. */
  datatype Entry = Entry(mtime: Option<nat>, isLink: bool, origin: string)

  /** A file a finder lists: the prefix of its source storage (if any), its
      path there, its modification time in microseconds (`None` when the
      source storage cannot tell) and its full path on disk. */
  datatype SourceFile = SourceFile(prefix: Option<string>, path: string, mtime: Option<nat>, location: string)

  /** The collector's switches and what it knows about the destination:
      `local` is whether the destination storage has real paths, `now` the
      modification time a file written now receives. */
  datatype Options = Options(symlink: bool, clear: bool, dryRun: bool, postProcess: bool, local: bool, now: nat)

  /** The destination storage and the three lists the collector keeps. */
  datatype Tally = Tally(storage: map<string, Entry>, copied: seq<string>, symlinked: seq<string>, unmodified: seq<string>)

  // ---------------------------------------------------------------------
  // Destination paths

  /** `os.path.join(a, b)` for POSIX paths. */
  function PathJoin(a: string, b: string): (s: string)
    ensures |b| > 0 && b[0] == '/' ==> s == b
    ensures (|b| == 0 || b[0] != '/') && a != "" && a[|a| - 1] != '/' ==> s == a + "/" + b
  {
    if |b| > 0 && b[0] == '/' then b
    else if a == "" || a[|a| - 1] == '/' then a + b
    else a + "/" + b
  }

  /** The destination key of a source file: `prefix/path` when its source
      storage has a non-empty prefix, otherwise the path itself. */
  function Destination(src: SourceFile): (key: string)
    ensures src.prefix.None? || src.prefix.value == "" ==> key == src.path
    ensures src.prefix.Some? && src.prefix.value != "" && src.prefix.value[|src.prefix.value| - 1] != '/'
              && (|src.path| == 0 || src.path[0] != '/')
            ==> key == src.prefix.value + "/" + src.path
  {
    if src.prefix.Some? && src.prefix.value != "" then PathJoin(src.prefix.value, src.path) else src.path
  }

  // ---------------------------------------------------------------------
  // One file

  /** `datetime.replace(microsecond=0)` on a time in microseconds. */
  function Seconds(t: nat): nat {
    t / 1000000
  }

  /** A target one whole second older than its source is never taken for
      unmodified. */
  lemma OlderBySecond(target: nat, source: nat)
    requires target + 1000000 <= source
    ensures Seconds(target) < Seconds(source)
  {
    assert (target + 1000000) / 1000000 == target / 1000000 + 1;
  }

  /** Whether an existing target may be left as it is: both times are
      known, the target is not older at whole-second precision, and on a
      local destination its link-ness matches the mode. */
  predicate Unmodified(o: Options, target: Entry, src: SourceFile) {
    && target.mtime.Some? && src.mtime.Some?
    && Seconds(target.mtime.value) >= Seconds(src.mtime.value)
    && (!o.local || o.symlink == target.isLink)
  }

  /** `delete_file`: whether to go on writing `key`, and the new tally. */
  function DeleteStep(o: Options, t: Tally, key: string, src: SourceFile): (Tally, bool) {
    if key in t.storage && Unmodified(o, t.storage[key], src) then
      (t.(unmodified := if key in t.unmodified then t.unmodified else t.unmodified + [key]), false)
    else if key in t.storage && !o.dryRun then
      (t.(storage := t.storage - {key}), true)
    else
      (t, true)
  }

  /** `delete_file` skips exactly when the target exists and is unmodified;
      it removes the target exactly when it exists, is not skipped and this
      is not a dry run; the skip list gains the key at most once. */
  lemma DeleteStepSpec(o: Options, t: Tally, key: string, src: SourceFile)
    ensures var (t1, go) := DeleteStep(o, t, key, src);
      && (!go <==> key in t.storage && Unmodified(o, t.storage[key], src))
      && (key in t1.storage <==> key in t.storage && (!go || o.dryRun))
      && (forall k :: k != key ==> (k in t1.storage <==> k in t.storage))
      && (forall k :: k in t1.storage ==> t1.storage[k] == t.storage[k])
      && (!go ==> key in t1.unmodified && |t1.unmodified| <= |t.unmodified| + 1)
      && (go ==> t1.unmodified == t.unmodified)
      && t1.copied == t.copied && t1.symlinked == t.symlinked
  {
  }

  /** A target written within the same second as its source, even a few
      microseconds before it, is taken for unmodified when its link-ness
      suits the mode: `delete_file` skips it and leaves the storage as it
      is. */
  lemma SameSecond(o: Options, t: Tally, key: string, src: SourceFile)
    requires key in t.storage && t.storage[key].mtime.Some? && src.mtime.Some?
    requires t.storage[key].mtime.value / 1000000 == src.mtime.value / 1000000
    requires !o.local || o.symlink == t.storage[key].isLink
    ensures var (t1, go) := DeleteStep(o, t, key, src);
      !go && t1.storage == t.storage && key in t1.unmodified
  {
  }

  /** `copy_file`. */
  function CopyStep(o: Options, t: Tally, key: string, src: SourceFile): Tally {
    if key in t.copied then t
    else
      var (t1, go) := DeleteStep(o, t, key, src);
      if !go then t1
      else t1.(storage := if o.dryRun then t1.storage else t1.storage[key := Entry(Some(o.now), false, src.location)],
               copied := t1.copied + [key])
  }

  /** `link_file`. */
  function LinkStep(o: Options, t: Tally, key: string, src: SourceFile): Tally {
    if key in t.symlinked then t
    else
      var (t1, go) := DeleteStep(o, t, key, src);
      if !go then t1
      else t1.(storage := if o.dryRun then t1.storage else t1.storage[key := Entry(Some(o.now), true, src.location)],
               symlinked := if key in t1.symlinked then t1.symlinked else t1.symlinked + [key])
  }

  /** The handler `collect` chooses: `link_file` in symlink mode,
      `copy_file` otherwise. */
  function HandleStep(o: Options, t: Tally, key: string, src: SourceFile): Tally {
    if o.symlink then LinkStep(o, t, key, src) else CopyStep(o, t, key, src)
  }

  /** A key already copied (or linked) is skipped before anything else. */
  lemma AlreadyHandledSkipped(o: Options, t: Tally, key: string, src: SourceFile)
    requires if o.symlink then key in t.symlinked else key in t.copied
    ensures HandleStep(o, t, key, src) == t
  {
  }

  /** A dry run records the key but never writes the storage. */
  lemma DryRunKeepsStorage(o: Options, t: Tally, key: string, src: SourceFile)
    requires o.dryRun
    ensures HandleStep(o, t, key, src).storage == t.storage
  {
  }

  // ---------------------------------------------------------------------
  // All files

  /** The tally and the `found_files` map while the finders are scanned. */
  datatype Scan = Scan(tally: Tally, found: map<string, SourceFile>)

  /** One listed file: handled if its destination is new, ignored if not. */
  function Visit(o: Options, sc: Scan, src: SourceFile): Scan {
    var key := Destination(src);
    if key in sc.found then sc
    else Scan(HandleStep(o, sc.tally, key, src), sc.found[key := src])
  }

  function VisitAll(o: Options, sc: Scan, files: seq<SourceFile>): Scan
    decreases |files|
  {
    if files == [] then sc else Visit(o, VisitAll(o, sc, files[..|files| - 1]), files[|files| - 1])
  }

  lemma VisitAllAppend(o: Options, sc: Scan, files: seq<SourceFile>, src: SourceFile)
    ensures VisitAll(o, sc, files + [src]) == Visit(o, VisitAll(o, sc, files), src)
  {
    assert (files + [src])[..|files + [src]| - 1] == files;
  }

  /** `files[j]` is the first listed file whose destination is `k`. */
  ghost predicate FirstAt(files: seq<SourceFile>, k: string, j: int) {
    0 <= j < |files| && Destination(files[j]) == k && forall i :: 0 <= i < j ==> Destination(files[i]) != k
  }

  ghost predicate FoundFirst(files: seq<SourceFile>, k: string, src: SourceFile) {
    exists j :: FirstAt(files, k, j) && files[j] == src
  }

  /** Some listed file has destination `k`. */
  ghost predicate Listed(files: seq<SourceFile>, k: string) {
    exists i :: 0 <= i < |files| && Destination(files[i]) == k
  }

  /** `found` holds exactly the destinations of `files`, each with the
      first file listed for it. */
  ghost predicate FirstWins(files: seq<SourceFile>, found: map<string, SourceFile>) {
    && (forall k :: k in found <==> Listed(files, k))
    && (forall k :: k in found ==> FoundFirst(files, k, found[k]))
  }

  /** The `found_files` map after listing `files`. */
  function FoundOf(files: seq<SourceFile>): map<string, SourceFile>
    decreases |files|
  {
    if files == [] then map[]
    else
      var m := FoundOf(files[..|files| - 1]);
      var key := Destination(files[|files| - 1]);
      if key in m then m else m[key := files[|files| - 1]]
  }

  lemma {:induction false} VisitAllFound(o: Options, t: Tally, files: seq<SourceFile>)
    ensures VisitAll(o, Scan(t, map[]), files).found == FoundOf(files)
    decreases |files|
  {
    if files != [] {
      VisitAllFound(o, t, files[..|files| - 1]);
    }
  }

  lemma {:induction false} FoundOfKeys(files: seq<SourceFile>)
    ensures forall k :: k in FoundOf(files) <==> Listed(files, k)
    decreases |files|
  {
    if files != [] {
      var init := files[..|files| - 1];
      FoundOfKeys(init);
      forall k ensures k in FoundOf(files) <==> Listed(files, k) {
        if k in FoundOf(init) {
          var i :| 0 <= i < |init| && Destination(init[i]) == k;
          assert files[i] == init[i];
        }
        if Listed(files, k) {
          var i :| 0 <= i < |files| && Destination(files[i]) == k;
          if i < |init| {
            assert init[i] == files[i];
          }
        }
      }
    }
  }

  lemma FirstAtExtend(init: seq<SourceFile>, src: SourceFile, k: string, j: int)
    requires FirstAt(init, k, j)
    ensures FirstAt(init + [src], k, j) && (init + [src])[j] == init[j]
  {
    forall i | 0 <= i < j ensures Destination((init + [src])[i]) != k {
      assert (init + [src])[i] == init[i];
    }
  }

  lemma FirstAtLast(init: seq<SourceFile>, src: SourceFile)
    requires !Listed(init, Destination(src))
    ensures FirstAt(init + [src], Destination(src), |init|)
  {
    forall i | 0 <= i < |init| ensures Destination((init + [src])[i]) != Destination(src) {
      assert (init + [src])[i] == init[i];
    }
  }

  lemma {:induction false} FoundOfFirst(files: seq<SourceFile>)
    ensures forall k :: k in FoundOf(files) ==> FoundFirst(files, k, FoundOf(files)[k])
    decreases |files|
  {
    if files != [] {
      var init := files[..|files| - 1];
      var src := files[|files| - 1];
      assert files == init + [src];
      FoundOfFirst(init);
      FoundOfKeys(init);
      var before := FoundOf(init);
      var found := FoundOf(files);
      forall k | k in found
        ensures FoundFirst(files, k, found[k])
      {
        if k in before {
          var j :| FirstAt(init, k, j) && init[j] == before[k];
          FirstAtExtend(init, src, k, j);
        } else {
          FirstAtLast(init, src);
        }
      }
    }
  }

  /** For every destination path the file found first wins: `found_files`
      holds exactly the listed destinations, each with the first file
      listed for it, which is the one the handler was called for. */
  lemma FirstFoundWins(o: Options, t: Tally, files: seq<SourceFile>)
    ensures FirstWins(files, VisitAll(o, Scan(t, map[]), files).found)
  {
    VisitAllFound(o, t, files);
    FoundOfKeys(files);
    FoundOfFirst(files);
  }

  /** What the scan keeps true, from empty lists on: the lists hold no
      duplicates, the handled and skipped keys are exactly the keys found,
      and no key is both handled and skipped; the list of the other mode
      stays empty. */
  ghost predicate Accounted(o: Options, sc: Scan) {
    var t := sc.tally;
    var handled := if o.symlink then t.symlinked else t.copied;
    && Seqs.NoDuplicates(handled) && Seqs.NoDuplicates(t.unmodified)
    && (if o.symlink then t.copied == [] else t.symlinked == [])
    && (forall k :: k in sc.found <==> k in handled || k in t.unmodified)
    && (forall k :: k in handled ==> k !in t.unmodified)
  }

  lemma VisitAccounted(o: Options, sc: Scan, src: SourceFile)
    requires Accounted(o, sc)
    ensures Accounted(o, Visit(o, sc, src))
  {
    var key := Destination(src);
    if key !in sc.found {
      var t := sc.tally;
      var handled := if o.symlink then t.symlinked else t.copied;
      assert key !in handled && key !in t.unmodified;
      var t2 := Visit(o, sc, src).tally;
      var handled2 := if o.symlink then t2.symlinked else t2.copied;
      if key in t.storage && Unmodified(o, t.storage[key], src) {
        assert handled2 == handled && t2.unmodified == t.unmodified + [key];
      } else {
        assert handled2 == handled + [key] && t2.unmodified == t.unmodified;
      }
    }
  }

  lemma {:induction false} VisitAllAccounted(o: Options, sc: Scan, files: seq<SourceFile>)
    requires Accounted(o, sc)
    ensures Accounted(o, VisitAll(o, sc, files))
    decreases |files|
  {
    if files != [] {
      VisitAllAccounted(o, sc, files[..|files| - 1]);
      VisitAccounted(o, VisitAll(o, sc, files[..|files| - 1]), files[|files| - 1]);
    }
  }

  /** From empty lists, every destination path found ends up exactly once
      in exactly one of the copied (or linked) and unmodified lists. */
  lemma EveryFoundKeyAccounted(o: Options, storage: map<string, Entry>, files: seq<SourceFile>)
    ensures var sc := VisitAll(o, Scan(Tally(storage, [], [], []), map[]), files);
      var handled := if o.symlink then sc.tally.symlinked else sc.tally.copied;
      && (if o.symlink then sc.tally.copied == [] else sc.tally.symlinked == [])
      && Seqs.NoDuplicates(handled) && Seqs.NoDuplicates(sc.tally.unmodified)
      && (forall k :: k in sc.found <==> k in handled || k in sc.tally.unmodified)
      && (forall k :: k in handled ==> k !in sc.tally.unmodified)
  {
    VisitAllAccounted(o, Scan(Tally(storage, [], [], []), map[]), files);
  }

  /** What the storage looks like after the scan, outside a dry run: a
      handled key holds a fresh copy (or link) of the file found for it, a
      skipped key keeps its old entry, and every other path is untouched. */
  ghost predicate Written(o: Options, before: map<string, Entry>, sc: Scan) {
    var t := sc.tally;
    var handled := if o.symlink then t.symlinked else t.copied;
    && (forall k :: k in handled && k in sc.found ==>
          k in t.storage && t.storage[k] == Entry(Some(o.now), o.symlink, sc.found[k].location))
    && (forall k :: k in t.unmodified && k !in handled ==>
          k in before && k in t.storage && t.storage[k] == before[k])
    && (forall k :: k !in sc.found ==> (k in t.storage <==> k in before))
    && (forall k :: k !in sc.found && k in before ==> t.storage[k] == before[k])
  }

  lemma VisitWritten(o: Options, before: map<string, Entry>, sc: Scan, src: SourceFile)
    requires !o.dryRun && Accounted(o, sc) && Written(o, before, sc)
    ensures Written(o, before, Visit(o, sc, src))
  {
    var key := Destination(src);
    if key !in sc.found {
      var t := sc.tally;
      var handled := if o.symlink then t.symlinked else t.copied;
      assert key !in handled && key !in t.unmodified;
      assert key in t.storage <==> key in before;
      var sc2 := Visit(o, sc, src);
      var t2 := sc2.tally;
      var handled2 := if o.symlink then t2.symlinked else t2.copied;
      if key in t.storage && Unmodified(o, t.storage[key], src) {
        assert t2.storage == t.storage && handled2 == handled;
        assert t2.unmodified == t.unmodified + [key];
      } else {
        assert t2.storage == (if key in t.storage then t.storage - {key} else t.storage)
          [key := Entry(Some(o.now), o.symlink, src.location)];
        assert handled2 == handled + [key] && t2.unmodified == t.unmodified;
      }
    }
  }

  lemma {:induction false} VisitAllWritten(o: Options, before: map<string, Entry>, sc: Scan, files: seq<SourceFile>)
    requires !o.dryRun && Accounted(o, sc) && Written(o, before, sc)
    ensures Written(o, before, VisitAll(o, sc, files))
    decreases |files|
  {
    if files != [] {
      var init := files[..|files| - 1];
      VisitAllWritten(o, before, sc, init);
      VisitAllAccounted(o, sc, init);
      VisitWritten(o, before, VisitAll(o, sc, init), files[|files| - 1]);
    }
  }

  /** Outside a dry run, from empty lists, the scan leaves every handled
      key holding the first file found for it, every skipped key as it
      was, and every path nobody listed as it was. */
  lemma ScanResult(o: Options, storage: map<string, Entry>, files: seq<SourceFile>)
    requires !o.dryRun
    ensures Written(o, storage, VisitAll(o, Scan(Tally(storage, [], [], []), map[]), files))
  {
    VisitAllWritten(o, storage, Scan(Tally(storage, [], [], []), map[]), files);
  }

  /** A dry run leaves the storage as it was, whatever was listed. */
  lemma {:induction false} DryRunScan(o: Options, sc: Scan, files: seq<SourceFile>)
    requires o.dryRun
    ensures VisitAll(o, sc, files).tally.storage == sc.tally.storage
    decreases |files|
  {
    if files != [] {
      DryRunScan(o, sc, files[..|files| - 1]);
    }
  }

  // ---------------------------------------------------------------------
  // Clearing

  /** Whether `key` lies under the directory `path` (`''` is the root). */
  predicate Under(key: string, path: string) {
    path == "" || (|key| > |path| && key[..|path| + 1] == path + "/")
  }

  function UnderKeys(storage: map<string, Entry>, path: string): set<string> {
    set k | k in storage && Under(k, path)
  }

  /** The storage after `clear_dir(path)`: every file under `path` is
      deleted, unless this is a dry run. */
  function Cleared(dryRun: bool, storage: map<string, Entry>, path: string): (r: map<string, Entry>)
    ensures forall k :: k in r <==> k in storage && (dryRun || !Under(k, path))
    ensures forall k :: k in r ==> r[k] == storage[k]
  {
    if dryRun then storage else storage - UnderKeys(storage, path)
  }

  // ---------------------------------------------------------------------
  // Post-processing

  /** One result the destination storage's `post_process` yields: the
      original path, the processed path, and whether it was processed,
      skipped or failed with an exception. */
  datatype ProcessOutcome = Processed | Skipped | Raised(error: string)
  datatype PostProcessed = PostProcessed(original: string, processed: string, outcome: ProcessOutcome)

  /** The first failure among the results, if any. */
  function FirstFailure(results: seq<PostProcessed>): (r: Option<nat>)
    ensures r.Some? ==> r.value < |results| && results[r.value].outcome.Raised?
    ensures r.Some? ==> forall i :: 0 <= i < r.value ==> !results[i].outcome.Raised?
    ensures r.None? ==> forall i :: 0 <= i < |results| ==> !results[i].outcome.Raised?
  {
    if results == [] then None
    else if results[0].outcome.Raised? then Some(0)
    else match FirstFailure(results[1..])
      case None => None
      case Some(i) => Some(i + 1)
  }

  /** A failure with none before it is the first. */
  lemma FirstFailureAt(results: seq<PostProcessed>, k: nat)
    requires k < |results| && results[k].outcome.Raised?
    requires forall m :: 0 <= m < k ==> !results[m].outcome.Raised?
    ensures FirstFailure(results) == Some(k)
  {
    match FirstFailure(results)
    case None =>
    case Some(i) =>
  }

  /** The intended post-processed list: the original path of every result
      that was processed, in order. */
  function PostProcessedFiles(results: seq<PostProcessed>): (r: seq<string>)
    ensures |r| <= |results|
    ensures forall p :: p in r <==> exists i :: 0 <= i < |results| && results[i].outcome.Processed? && results[i].original == p
    decreases |results|
  {
    if results == [] then []
    else
      var init := results[..|results| - 1];
      var last := results[|results| - 1];
      var rest := PostProcessedFiles(init);
      assert forall i :: 0 <= i < |init| ==> init[i] == results[i];
      if last.outcome.Processed? then rest + [last.original] else rest
  }

  // ---------------------------------------------------------------------
  // The summary line

  /** The noun of the summary, made plural by the tail. */
  const Noun: string := "static file"

  /** `%(action)s`. */
  function Action(symlink: bool): string {
    if symlink then "symlinked" else "copied"
  }

  /** `%(destination)s`: only for a local destination with a location. */
  function DestinationClause(destination: Option<string>): string {
    if destination.Some? && destination.value != "" then " to '" + destination.value + "'" else ""
  }

  /** `%(unmodified)s` and `%(post_processed)s`: present only for a
      non-empty list. */
  function CountClause(count: nat, word: string): string {
    if count == 0 then "" else ", " + Text.NatToString(count) + word
  }

  /** The part of the summary after the noun, up to the optional clauses:
      the plural, the action and the destination. */
  function LeadTail(modified: nat, symlink: bool, destination: Option<string>): (t: string)
    ensures |t| > 0 && (t[0] == 's' <==> modified != 1)
  {
    (if modified == 1 then "" else "s") + " " + Action(symlink) + DestinationClause(destination)
  }

  /** Where the count, the space, the noun and the tail sit in a summary. */
  lemma SummaryFrame(n: string, t: string)
    requires |t| > 0
    ensures var s := n + (" " + Noun) + t;
      && |s| > |n| + |Noun| + 1
      && s[..|n|] == n && s[|n|] == ' ' && s[|n| + 1..|n| + 1 + |Noun|] == Noun
      && s[|n| + 1 + |Noun|] == t[0]
  {
    var s := n + (" " + Noun) + t;
    assert s[..|n|] == n;
    assert s[|n|..|n| + 1 + |Noun|] == " " + Noun;
    assert s[|n| + 1..|n| + 1 + |Noun|] == (" " + Noun)[1..];
  }

  /** The summary before its optional clauses: the count, which reads back
      from the digits before the first space, then the noun, plural exactly
      when the count is not one, the action and the destination. */
  function SummaryLead(modified: nat, symlink: bool, destination: Option<string>): (s: string)
    ensures var n := Text.NatToString(modified);
      && |s| > |n| + |Noun| + 1
      && s[..|n|] == n && Text.DigitsValue(s[..|n|]) == modified
      && s[|n|] == ' ' && s[|n| + 1..|n| + 1 + |Noun|] == Noun
      && (s[|n| + 1 + |Noun|] == 's' <==> modified != 1)
  {
    var n := Text.NatToString(modified);
    Text.NatToStringRoundTrip(modified);
    var t := LeadTail(modified, symlink, destination);
    SummaryFrame(n, t);
    n + (" " + Noun) + t
  }

  /** Appending to a summary's lead keeps where its count, space and noun
      sit, and the result ends as the appended part does. */
  lemma AppendKeepsLead(lead: string, rest: string, n: string, noun: string, m: nat)
    requires |lead| > |n| + |noun| + 1 && |rest| > 0
    requires lead[..|n|] == n && Text.AllDigits(n) && Text.DigitsValue(n) == m
    requires lead[|n|] == ' ' && lead[|n| + 1..|n| + 1 + |noun|] == noun
    ensures var s := lead + rest;
      && |s| > |n| + |noun| + 1
      && s[..|n|] == n && Text.DigitsValue(s[..|n|]) == m
      && s[|n|] == ' ' && s[|n| + 1..|n| + 1 + |noun|] == noun
      && s[|n| + 1 + |noun|] == lead[|n| + 1 + |noun|]
      && s[|s| - 1] == rest[|rest| - 1]
  {
    var s := lead + rest;
    assert s[..|n|] == lead[..|n|];
    assert s[|n| + 1..|n| + 1 + |noun|] == lead[|n| + 1..|n| + 1 + |noun|];
  }

  predicate EndsWith(s: string, suffix: string) {
    |suffix| <= |s| && s[|s| - |suffix|..] == suffix
  }

  lemma EndsWithConcat(front: string, back: string, suffix: string)
    requires EndsWith(back, suffix)
    ensures EndsWith(front + back, suffix)
  {
    assert (front + back)[|front + back| - |suffix|..] == back[|back| - |suffix|..];
  }

  /** The summary `handle` logs after collecting: its lead, then the
      unmodified and the post-processed clauses, then a full stop. The
      count reads back from the digits before the first space, the noun is
      plural exactly when the count is not one, and the line ends in a full
      stop. */
  function Summary(modified: nat, unmodified: nat, postProcessed: nat, symlink: bool, destination: Option<string>)
    : (s: string)
    ensures var n := Text.NatToString(modified);
      && |s| > |n| + |Noun| + 1
      && s[..|n|] == n && Text.DigitsValue(s[..|n|]) == modified
      && s[|n|] == ' ' && s[|n| + 1..|n| + 1 + |Noun|] == Noun
      && (s[|n| + 1 + |Noun|] == 's' <==> modified != 1)
      && s[|s| - 1] == '.'
  {
    var lead := SummaryLead(modified, symlink, destination);
    var rest := CountClause(unmodified, " unmodified") + CountClause(postProcessed, " post-processed") + ".";
    AppendKeepsLead(lead, rest, Text.NatToString(modified), Noun, modified);
    lead + rest
  }

  /** With nothing skipped or post-processed, the summary is the count, the
      noun (plural unless the count is one), the action word of the mode
      and, for a destination with a location, ` to '<location>'`. */
  lemma SummaryPlain(modified: nat, symlink: bool, destination: Option<string>)
    ensures Summary(modified, 0, 0, symlink, destination)
         == Text.NatToString(modified) + (" " + Noun)
              + ((if modified == 1 then "" else "s") + " " + (if symlink then "symlinked" else "copied")
                 + (if destination.Some? && destination.value != "" then " to '" + destination.value + "'" else "")
                 + ".")
  {
    var n := Text.NatToString(modified) + (" " + Noun);
    var t := LeadTail(modified, symlink, destination);
    assert CountClause(0, " unmodified") + CountClause(0, " post-processed") + "." == ".";
    assert n + t + "." == n + (t + ".");
  }

  /** The unmodified and post-processed clauses come, in that order, just
      before the final full stop of the plain summary; each one is present
      exactly when its count is not zero. */
  lemma SummaryClauses(modified: nat, unmodified: nat, postProcessed: nat, symlink: bool, destination: Option<string>)
    ensures var plain := Summary(modified, 0, 0, symlink, destination);
      Summary(modified, unmodified, postProcessed, symlink, destination)
        == plain[..|plain| - 1]
           + (if unmodified == 0 then "" else ", " + Text.NatToString(unmodified) + " unmodified")
           + (if postProcessed == 0 then "" else ", " + Text.NatToString(postProcessed) + " post-processed")
           + "."
  {
    PlainSummaryLead(modified, symlink, destination);
    SummaryParts(modified, unmodified, postProcessed, symlink, destination);
  }

  /** The plain summary is its lead and a full stop. */
  lemma PlainSummaryLead(modified: nat, symlink: bool, destination: Option<string>)
    ensures var plain := Summary(modified, 0, 0, symlink, destination);
      plain[..|plain| - 1] == SummaryLead(modified, symlink, destination)
  {
    var lead := SummaryLead(modified, symlink, destination);
    assert CountClause(0, " unmodified") + CountClause(0, " post-processed") + "." == ".";
    assert (lead + ".")[..|lead|] == lead;
  }

  /** A summary is its lead, the two count clauses and a full stop. */
  lemma SummaryParts(modified: nat, unmodified: nat, postProcessed: nat, symlink: bool, destination: Option<string>)
    ensures Summary(modified, unmodified, postProcessed, symlink, destination)
         == SummaryLead(modified, symlink, destination)
            + CountClause(unmodified, " unmodified") + CountClause(postProcessed, " post-processed") + "."
  {
    var u := CountClause(unmodified, " unmodified");
    var p := CountClause(postProcessed, " post-processed");
    var lead := SummaryLead(modified, symlink, destination);
    assert lead + (u + p + ".") == lead + u + p + ".";
  }

  /** When files were post-processed, the summary ends with their count. */
  lemma SummaryEndsPostProcessed(modified: nat, unmodified: nat, postProcessed: nat, symlink: bool, destination: Option<string>)
    requires postProcessed > 0
    ensures EndsWith(Summary(modified, unmodified, postProcessed, symlink, destination),
                     ", " + Text.NatToString(postProcessed) + " post-processed" + ".")
  {
    var u := CountClause(unmodified, " unmodified");
    var suffix := ", " + Text.NatToString(postProcessed) + " post-processed" + ".";
    var lead := SummaryLead(modified, symlink, destination);
    SummaryParts(modified, unmodified, postProcessed, symlink, destination);
    assert CountClause(postProcessed, " post-processed") + "." == suffix;
    assert Summary(modified, unmodified, postProcessed, symlink, destination) == (lead + u) + suffix;
    EndsWithConcat(lead + u, suffix, suffix);
  }

  /** When nothing was post-processed but files were skipped, the summary
      ends with the count of unmodified files. */
  lemma SummaryEndsUnmodified(modified: nat, unmodified: nat, symlink: bool, destination: Option<string>)
    requires unmodified > 0
    ensures EndsWith(Summary(modified, unmodified, 0, symlink, destination),
                     ", " + Text.NatToString(unmodified) + " unmodified" + ".")
  {
    var suffix := ", " + Text.NatToString(unmodified) + " unmodified" + ".";
    assert CountClause(unmodified, " unmodified") + CountClause(0, " post-processed") + "." == suffix;
    EndsWithConcat(SummaryLead(modified, symlink, destination), suffix, suffix);
  }

  /** Different counts give different summaries. */
  lemma SummaryDeterminesCount(a: nat, b: nat, ua: nat, ub: nat, pa: nat, pb: nat, symlink: bool, destination: Option<string>)
    requires Summary(a, ua, pa, symlink, destination) == Summary(b, ub, pb, symlink, destination)
    ensures a == b
  {
    var s := Summary(a, ua, pa, symlink, destination);
    var na := Text.NatToString(a);
    var nb := Text.NatToString(b);
    DigitsBeforeSpace(s, na);
    DigitsBeforeSpace(s, nb);
    assert |na| == |nb|;
    assert na == s[..|na|] == nb;
    Text.NatToStringInjective(a, b);
  }

  /** No space occurs among the leading digits. */
  lemma DigitsBeforeSpace(s: string, n: string)
    requires Text.AllDigits(n) && |n| < |s| && s[..|n|] == n
    ensures forall i :: 0 <= i < |n| ==> s[i] != ' '
  {
    forall i | 0 <= i < |n| ensures s[i] != ' ' {
      assert s[i] == n[i];
    }
  }

  // ---------------------------------------------------------------------
  // Collecting

  /** Why `collect` stops early. */
  datatype CollectError = CollectorError(message: string) | PostProcessError(original: string, error: string)

  /** What `collect` returns. */
  datatype Collected = Collected(modified: seq<string>, unmodified: seq<string>, postProcessed: seq<string>)

  const RemoteSymlinkMessage: string := "Can't symlink to a remote destination."

  /** The first part of `collect` on values: the tally after clearing (if
      asked) and copying or linking every file the finders list. */
  function Scanned(o: Options, t: Tally, finders: seq<seq<SourceFile>>): Tally {
    var start := if o.clear then t.(storage := Cleared(o.dryRun, t.storage, "")) else t;
    VisitAll(o, Scan(start, map[]), Seqs.Flatten(finders)).tally
  }

  /** `collect` on values, as written: the new tally, the post-processed
      list and the result, from the old ones, what the finders list and
      what post-processing yields. The post-processing loop only logs, so
      the post-processed list comes back as it was. */
  function CollectStep(o: Options, hasPostProcess: bool, t: Tally, postProcessed: seq<string>,
                       finders: seq<seq<SourceFile>>, results: seq<PostProcessed>)
    : (Tally, seq<string>, Result<Collected, CollectError>)
  {
    if o.symlink && !o.local then (t, postProcessed, Err(CollectorError(RemoteSymlinkMessage)))
    else
      var t1 := Scanned(o, t, finders);
      if !(o.postProcess && hasPostProcess) then
        (t1, postProcessed, Ok(Collected(t1.copied + t1.symlinked, t1.unmodified, postProcessed)))
      else match FirstFailure(results)
        case Some(i) =>
          (t1, postProcessed, Err(PostProcessError(results[i].original, results[i].outcome.error)))
        case None =>
          (t1, postProcessed, Ok(Collected(t1.copied + t1.symlinked, t1.unmodified, postProcessed)))
  }

  /** `collect` as evidently intended: each processed original path is
      added to the post-processed list as the loop meets it. */
  function IntendedCollectStep(o: Options, hasPostProcess: bool, t: Tally, postProcessed: seq<string>,
                               finders: seq<seq<SourceFile>>, results: seq<PostProcessed>)
    : (Tally, seq<string>, Result<Collected, CollectError>)
  {
    if o.symlink && !o.local then (t, postProcessed, Err(CollectorError(RemoteSymlinkMessage)))
    else
      var t1 := Scanned(o, t, finders);
      if !(o.postProcess && hasPostProcess) then
        (t1, postProcessed, Ok(Collected(t1.copied + t1.symlinked, t1.unmodified, postProcessed)))
      else match FirstFailure(results)
        case Some(i) =>
          (t1, postProcessed + PostProcessedFiles(results[..i]),
           Err(PostProcessError(results[i].original, results[i].outcome.error)))
        case None =>
          var pp := postProcessed + PostProcessedFiles(results);
          (t1, pp, Ok(Collected(t1.copied + t1.symlinked, t1.unmodified, pp)))
  }

  /** The storage the scan starts from. */
  function StartStorage(o: Options, storage: map<string, Entry>): map<string, Entry> {
    if o.clear then Cleared(o.dryRun, storage, "") else storage
  }

  /** Symlinking into a storage without real paths is refused before
      anything is touched. */
  lemma RemoteSymlinkRefused(o: Options, hasPostProcess: bool, t: Tally, pp: seq<string>,
                             finders: seq<seq<SourceFile>>, results: seq<PostProcessed>)
    requires o.symlink && !o.local
    ensures CollectStep(o, hasPostProcess, t, pp, finders, results) == (t, pp, Err(CollectorError(RemoteSymlinkMessage)))
  {
  }

  /** A fresh collector accounts for every destination path listed: it is
      reported once, either as modified or as unmodified, and nothing else
      is reported; the list of the other mode stays empty. */
  lemma {:induction false} CollectAccounts(o: Options, hasPostProcess: bool, storage: map<string, Entry>,
                        finders: seq<seq<SourceFile>>, results: seq<PostProcessed>)
    requires !(o.symlink && !o.local)
    ensures var (t1, _, _) := CollectStep(o, hasPostProcess, Tally(storage, [], [], []), [], finders, results);
      var modified := t1.copied + t1.symlinked;
      && (if o.symlink then t1.copied == [] else t1.symlinked == [])
      && Seqs.NoDuplicates(modified) && Seqs.NoDuplicates(t1.unmodified)
      && (forall k :: k in modified || k in t1.unmodified <==> Listed(Seqs.Flatten(finders), k))
      && (forall k :: k in modified ==> k !in t1.unmodified)
  {
    var start := Tally(StartStorage(o, storage), [], [], []);
    CollectScans(o, hasPostProcess, storage, finders, results);
    EveryFoundKeyAccounted(o, start.storage, Seqs.Flatten(finders));
    FirstFoundWins(o, start, Seqs.Flatten(finders));
  }

  /** Unless symlinking is refused, collecting scans from the storage as
      clearing left it. */
  lemma {:induction false} CollectScans(o: Options, hasPostProcess: bool, storage: map<string, Entry>,
                                        finders: seq<seq<SourceFile>>, results: seq<PostProcessed>)
    requires !(o.symlink && !o.local)
    ensures CollectStep(o, hasPostProcess, Tally(storage, [], [], []), [], finders, results).0
         == VisitAll(o, Scan(Tally(StartStorage(o, storage), [], [], []), map[]), Seqs.Flatten(finders)).tally
  {
    var start := Tally(StartStorage(o, storage), [], [], []);
    assert (if o.clear then Tally(storage, [], [], []).(storage := Cleared(o.dryRun, storage, "")) else Tally(storage, [], [], [])) == start;
    assert Scanned(o, Tally(storage, [], [], []), finders) == VisitAll(o, Scan(start, map[]), Seqs.Flatten(finders)).tally;
  }

  /** Outside a dry run, a scan from a fresh tally leaves every modified
      path holding a fresh copy (or link) of the first file listed for it,
      every unmodified path as it was, and every path nobody listed as it
      was. */
  lemma {:induction false} ScanWrites(o: Options, start: map<string, Entry>, files: seq<SourceFile>)
    requires !o.dryRun
    ensures var t1 := VisitAll(o, Scan(Tally(start, [], [], []), map[]), files).tally;
      var first := FoundOf(files);
      && (forall k :: k in t1.copied + t1.symlinked ==>
            k in first && FoundFirst(files, k, first[k])
            && k in t1.storage && t1.storage[k] == Entry(Some(o.now), o.symlink, first[k].location))
      && (forall k :: k in t1.unmodified && k !in t1.copied + t1.symlinked ==>
            k in start && k in t1.storage && t1.storage[k] == start[k])
      && (forall k :: !Listed(files, k) ==> (k in t1.storage <==> k in start))
      && (forall k :: !Listed(files, k) && k in start ==> t1.storage[k] == start[k])
  {
    var t0 := Tally(start, [], [], []);
    ScanResult(o, start, files);
    EveryFoundKeyAccounted(o, start, files);
    FirstFoundWins(o, t0, files);
    VisitAllFound(o, t0, files);
    var sc := VisitAll(o, Scan(t0, map[]), files);
    var handled := if o.symlink then sc.tally.symlinked else sc.tally.copied;
    assert sc.tally.copied + sc.tally.symlinked == handled;
    assert sc.found == FoundOf(files);
    assert Written(o, start, sc);
    assert FirstWins(files, sc.found);
  }

  /** Outside a dry run, a fresh collector leaves every modified path
      holding a fresh copy (or link) of the first file listed for it,
      every unmodified path as it was after clearing, and every path
      nobody listed as it was after clearing. */
  lemma {:induction false} CollectWrites(o: Options, hasPostProcess: bool, storage: map<string, Entry>,
                      finders: seq<seq<SourceFile>>, results: seq<PostProcessed>)
    requires !(o.symlink && !o.local) && !o.dryRun
    ensures var (t1, _, _) := CollectStep(o, hasPostProcess, Tally(storage, [], [], []), [], finders, results);
      var files := Seqs.Flatten(finders);
      var first := FoundOf(files);
      var start := StartStorage(o, storage);
      && (forall k :: k in t1.copied + t1.symlinked ==>
            k in first && FoundFirst(files, k, first[k])
            && k in t1.storage && t1.storage[k] == Entry(Some(o.now), o.symlink, first[k].location))
      && (forall k :: k in t1.unmodified && k !in t1.copied + t1.symlinked ==>
            k in start && k in t1.storage && t1.storage[k] == start[k])
      && (forall k :: !Listed(files, k) ==> (k in t1.storage <==> k in start))
      && (forall k :: !Listed(files, k) && k in start ==> t1.storage[k] == start[k])
  {
    CollectScans(o, hasPostProcess, storage, finders, results);
    ScanWrites(o, StartStorage(o, storage), Seqs.Flatten(finders));
  }

  /** A dry run, with or without clearing, leaves the storage as it was. */
  lemma CollectDryRun(o: Options, hasPostProcess: bool, t: Tally, pp: seq<string>,
                      finders: seq<seq<SourceFile>>, results: seq<PostProcessed>)
    requires o.dryRun
    ensures CollectStep(o, hasPostProcess, t, pp, finders, results).0.storage == t.storage
  {
    var start := if o.clear then t.(storage := Cleared(o.dryRun, t.storage, "")) else t;
    DryRunScan(o, Scan(start, map[]), Seqs.Flatten(finders));
  }

  /** `results[i]` is the first failure. */
  ghost predicate FailsFirst(results: seq<PostProcessed>, i: int) {
    0 <= i < |results| && results[i].outcome.Raised? && forall j :: 0 <= j < i ==> !results[j].outcome.Raised?
  }

  /** `p` is the original path of a processed result. */
  ghost predicate ProcessedOriginal(results: seq<PostProcessed>, p: string) {
    exists i :: 0 <= i < |results| && results[i].outcome.Processed? && results[i].original == p
  }

  /** Post-processing stops at the first failure and reports it, and
      otherwise `collect` succeeds; either way the post-processed list is
      left as it was, since the loop only logs. */
  lemma CollectPostProcessing(o: Options, t: Tally, pp: seq<string>,
                              finders: seq<seq<SourceFile>>, results: seq<PostProcessed>)
    requires !(o.symlink && !o.local) && o.postProcess
    ensures var (t1, pp1, r) := CollectStep(o, true, t, pp, finders, results);
      && pp1 == pp
      && (r.Err? <==> exists i :: 0 <= i < |results| && results[i].outcome.Raised?)
      && (r.Err? ==> exists i :: FailsFirst(results, i) && r.error == PostProcessError(results[i].original, results[i].outcome.error))
      && (r.Ok? ==> r.value == Collected(t1.copied + t1.symlinked, t1.unmodified, pp))
  {
    match FirstFailure(results)
    case Some(i) =>
    case None =>
  }

  /** As intended, post-processing stops at the first failure and reports
      it; without one, the post-processed list gains the original path of
      every processed result and `collect` succeeds. */
  lemma IntendedPostProcessing(o: Options, t: Tally, pp: seq<string>,
                               finders: seq<seq<SourceFile>>, results: seq<PostProcessed>)
    requires !(o.symlink && !o.local) && o.postProcess
    ensures var (_, pp1, r) := IntendedCollectStep(o, true, t, pp, finders, results);
      && (r.Err? <==> exists i :: 0 <= i < |results| && results[i].outcome.Raised?)
      && (r.Err? ==> exists i :: FailsFirst(results, i) && r.error == PostProcessError(results[i].original, results[i].outcome.error))
      && (r.Ok? ==> r.value.postProcessed == pp1)
      && (r.Ok? ==> forall p :: p in pp1 <==> p in pp || ProcessedOriginal(results, p))
  {
    match FirstFailure(results)
    case Some(i) =>
    case None =>
  }

  /** Whatever post-processing yields, `collect` as written leaves the
      post-processed list as it was, where the intended `collect` adds every
      processed path: with a processed result and no failure, the two
      lists differ. */
  lemma ProcessedNeverCounted(o: Options, t: Tally, pp: seq<string>,
                              finders: seq<seq<SourceFile>>, results: seq<PostProcessed>, k: nat)
    requires !(o.symlink && !o.local) && o.postProcess
    requires k < |results| && results[k].outcome.Processed?
    requires forall i :: 0 <= i < |results| ==> !results[i].outcome.Raised?
    ensures CollectStep(o, true, t, pp, finders, results).1 == pp
    ensures |IntendedCollectStep(o, true, t, pp, finders, results).1| > |pp|
  {
    assert results[k].original in PostProcessedFiles(results);
  }

  /** With post-processing off, or a storage without it, the post-processed
      list is left as it was. */
  lemma CollectWithoutPostProcessing(o: Options, hasPostProcess: bool, t: Tally, pp: seq<string>,
                                     finders: seq<seq<SourceFile>>, results: seq<PostProcessed>)
    requires !(o.symlink && !o.local) && !(o.postProcess && hasPostProcess)
    ensures var (t1, pp1, r) := CollectStep(o, hasPostProcess, t, pp, finders, results);
      pp1 == pp && r == Ok(Collected(t1.copied + t1.symlinked, t1.unmodified, pp))
  {
  }

  /** The summary `handle` logs for a result of `collect`. */
  function Report(r: Result<Collected, CollectError>, symlink: bool, destination: Option<string>): Result<string, CollectError> {
    match r
    case Err(e) => Err(e)
    case Ok(c) => Ok(Summary(|c.modified|, |c.unmodified|, |c.postProcessed|, symlink, destination))
  }

  /** A fresh collector's summary, as written, never carries the
      post-processed clause: whatever post-processing yields, a successful
      `collect` is reported with a post-processed count of zero. */
  lemma AsWrittenNeverReportsPostProcessing(o: Options, hasPostProcess: bool, t: Tally,
                                            finders: seq<seq<SourceFile>>, results: seq<PostProcessed>,
                                            destination: Option<string>)
    ensures var (t1, _, r) := CollectStep(o, hasPostProcess, t, [], finders, results);
      r.Ok? ==>
        Report(r, o.symlink, destination) == Ok(Summary(|t1.copied + t1.symlinked|, |t1.unmodified|, 0, o.symlink, destination))
  {
  }

  /** A fresh collector's summary, as intended, ends with the number of
      post-processed files whenever some result was processed and none
      failed. */
  lemma IntendedReportsPostProcessing(o: Options, t: Tally,
                                      finders: seq<seq<SourceFile>>, results: seq<PostProcessed>,
                                      destination: Option<string>, k: nat)
    requires !(o.symlink && !o.local) && o.postProcess
    requires k < |results| && results[k].outcome.Processed?
    requires forall i :: 0 <= i < |results| ==> !results[i].outcome.Raised?
    ensures var (t1, pp1, r) := IntendedCollectStep(o, true, t, [], finders, results);
      && pp1 == PostProcessedFiles(results) && |pp1| > 0
      && Report(r, o.symlink, destination)
         == Ok(Summary(|t1.copied + t1.symlinked|, |t1.unmodified|, |pp1|, o.symlink, destination))
      && EndsWith(Report(r, o.symlink, destination).value,
                  ", " + Text.NatToString(|pp1|) + " post-processed" + ".")
  {
    IntendedCollectsProcessed(o, t, finders, results, k);
    var (t1, pp1, r) := IntendedCollectStep(o, true, t, [], finders, results);
    SummaryEndsPostProcessed(|t1.copied + t1.symlinked|, |t1.unmodified|, |pp1|, o.symlink, destination);
  }

  /** As intended, a fresh collector with a processed result and no failure
      returns the processed paths as its post-processed list. */
  lemma IntendedCollectsProcessed(o: Options, t: Tally, finders: seq<seq<SourceFile>>, results: seq<PostProcessed>, k: nat)
    requires !(o.symlink && !o.local) && o.postProcess
    requires k < |results| && results[k].outcome.Processed?
    requires forall i :: 0 <= i < |results| ==> !results[i].outcome.Raised?
    ensures var (t1, pp1, r) := IntendedCollectStep(o, true, t, [], finders, results);
      && pp1 == PostProcessedFiles(results) && |pp1| > 0
      && r == Ok(Collected(t1.copied + t1.symlinked, t1.unmodified, pp1))
  {
    assert results[k].original in PostProcessedFiles(results);
    assert FirstFailure(results) == None;
    assert [] + PostProcessedFiles(results) == PostProcessedFiles(results);
  }

  /** The collector: its switches and what it knows about the destination
      storage are fixed at construction; the storage and the lists change. */
  class Collector {
    const symlink: bool
    const clear: bool
    const dryRun: bool
    const postProcess: bool
    /** Whether the destination storage has real paths (`local`). */
    const local: bool
    /** Whether the destination storage is a file-system storage. */
    const isLocalStorage: bool
    /** The destination storage's location. */
    const location: string
    /** Whether the destination storage defines `post_process`. */
    const hasPostProcess: bool

    var storage: map<string, Entry>
    var copiedFiles: seq<string>
    var symlinkedFiles: seq<string>
    var unmodifiedFiles: seq<string>
    var postProcessedFiles: seq<string>

    constructor (symlink: bool, clear: bool, dryRun: bool, postProcess: bool,
                 local: bool, isLocalStorage: bool, location: string, hasPostProcess: bool,
                 storage: map<string, Entry>)
      ensures this.symlink == symlink && this.clear == clear && this.dryRun == dryRun
      ensures this.postProcess == postProcess && this.local == local
      ensures this.isLocalStorage == isLocalStorage && this.location == location
      ensures this.hasPostProcess == hasPostProcess && this.storage == storage
      ensures copiedFiles == [] && symlinkedFiles == [] && unmodifiedFiles == [] && postProcessedFiles == []
    {
      this.symlink := symlink;
      this.clear := clear;
      this.dryRun := dryRun;
      this.postProcess := postProcess;
      this.local := local;
      this.isLocalStorage := isLocalStorage;
      this.location := location;
      this.hasPostProcess := hasPostProcess;
      this.storage := storage;
      copiedFiles := [];
      symlinkedFiles := [];
      unmodifiedFiles := [];
      postProcessedFiles := [];
    }

    function Opts(now: nat): Options {
      Options(symlink, clear, dryRun, postProcess, local, now)
    }

    function State(): Tally
      reads this
    {
      Tally(storage, copiedFiles, symlinkedFiles, unmodifiedFiles)
    }

    /** The destination `handle` names: the location of a file-system
        storage that has one. */
    function DestinationPath(): Option<string> {
      if isLocalStorage && location != "" then Some(location) else None
    }

    /** `delete_file`: false when the target may be left as it is. */
    method DeleteFile(prefixedPath: string, src: SourceFile, now: nat) returns (go: bool)
      modifies this
      ensures (State(), go) == DeleteStep(Opts(now), old(State()), prefixedPath, src)
      ensures postProcessedFiles == old(postProcessedFiles)
    {
      if prefixedPath in storage {
        var target := storage[prefixedPath];
        if target.mtime.Some? && src.mtime.Some? {
          var canSkip := if local then symlink == target.isLink else true;
          var unmodified := Seconds(target.mtime.value) >= Seconds(src.mtime.value);
          if unmodified && canSkip {
            if prefixedPath !in unmodifiedFiles {
              unmodifiedFiles := unmodifiedFiles + [prefixedPath];
            }
            return false;
          }
        }
        if !dryRun {
          storage := storage - {prefixedPath};
        }
      }
      return true;
    }

    /** `copy_file`. */
    method CopyFile(prefixedPath: string, src: SourceFile, now: nat)
      modifies this
      ensures State() == CopyStep(Opts(now), old(State()), prefixedPath, src)
      ensures postProcessedFiles == old(postProcessedFiles)
    {
      if prefixedPath in copiedFiles {
        return;
      }
      var go := DeleteFile(prefixedPath, src, now);
      if !go {
        return;
      }
      if !dryRun {
        storage := storage[prefixedPath := Entry(Some(now), false, src.location)];
      }
      copiedFiles := copiedFiles + [prefixedPath];
    }

    /** `link_file`. */
    method LinkFile(prefixedPath: string, src: SourceFile, now: nat)
      modifies this
      ensures State() == LinkStep(Opts(now), old(State()), prefixedPath, src)
      ensures postProcessedFiles == old(postProcessedFiles)
    {
      if prefixedPath in symlinkedFiles {
        return;
      }
      var go := DeleteFile(prefixedPath, src, now);
      if !go {
        return;
      }
      if !dryRun {
        storage := storage[prefixedPath := Entry(Some(now), true, src.location)];
      }
      if prefixedPath !in symlinkedFiles {
        symlinkedFiles := symlinkedFiles + [prefixedPath];
      }
    }

    /** `clear_dir`: deletes every file under `path`, one at a time. */
    method ClearDir(path: string)
      modifies this
      ensures storage == Cleared(dryRun, old(storage), path)
      ensures copiedFiles == old(copiedFiles) && symlinkedFiles == old(symlinkedFiles)
      ensures unmodifiedFiles == old(unmodifiedFiles) && postProcessedFiles == old(postProcessedFiles)
    {
      if dryRun {
        return;
      }
      var pending := UnderKeys(storage, path);
      ghost var all := pending;
      while pending != {}
        invariant pending <= all
        invariant storage == old(storage) - (all - pending)
        invariant copiedFiles == old(copiedFiles) && symlinkedFiles == old(symlinkedFiles)
        invariant unmodifiedFiles == old(unmodifiedFiles) && postProcessedFiles == old(postProcessedFiles)
        decreases |pending|
      {
        var f :| f in pending;
        storage := storage - {f};
        pending := pending - {f};
      }
      assert all - pending == all;
    }

    /** The first loop of `collect` over one finder's listing: every file
        whose destination is new is recorded in `found` and handed to the
        handler. */
    method CollectListing(listing: seq<SourceFile>, found0: map<string, SourceFile>, now: nat,
                          ghost start: Tally, ghost before: seq<SourceFile>)
      returns (found: map<string, SourceFile>)
      requires Scan(State(), found0) == VisitAll(Opts(now), Scan(start, map[]), before)
      modifies this
      ensures Scan(State(), found) == VisitAll(Opts(now), Scan(start, map[]), before + listing)
      ensures postProcessedFiles == old(postProcessedFiles)
    {
      found := found0;
      var j := 0;
      assert before + listing[..0] == before;
      while j < |listing|
        invariant 0 <= j <= |listing|
        invariant Scan(State(), found) == VisitAll(Opts(now), Scan(start, map[]), before + listing[..j])
        invariant postProcessedFiles == old(postProcessedFiles)
      {
        var src := listing[j];
        VisitAllAppend(Opts(now), Scan(start, map[]), before + listing[..j], src);
        found := CollectFile(src, found, now);
        assert before + listing[..j + 1] == before + listing[..j] + [src];
        j := j + 1;
      }
      assert listing[..|listing|] == listing;
    }

    /** One turn of the inner loop of `collect`: the first file found for
        a destination is copied (or linked); later ones are passed over. */
    method CollectFile(src: SourceFile, found0: map<string, SourceFile>, now: nat)
      returns (found: map<string, SourceFile>)
      modifies this
      ensures Scan(State(), found) == Visit(Opts(now), Scan(old(State()), found0), src)
      ensures postProcessedFiles == old(postProcessedFiles)
    {
      found := found0;
      var key := Destination(src);
      if key !in found {
        found := found[key := src];
        if symlink {
          LinkFile(key, src, now);
        } else {
          CopyFile(key, src, now);
        }
      }
    }

    /** The loop of `collect` over the finders. */
    method CollectFinders(finders: seq<seq<SourceFile>>, now: nat) returns (found: map<string, SourceFile>)
      modifies this
      ensures Scan(State(), found) == VisitAll(Opts(now), Scan(old(State()), map[]), Seqs.Flatten(finders))
      ensures postProcessedFiles == old(postProcessedFiles)
    {
      ghost var start := State();
      found := map[];
      var i := 0;
      while i < |finders|
        invariant 0 <= i <= |finders|
        invariant Scan(State(), found) == VisitAll(Opts(now), Scan(start, map[]), Seqs.Flatten(finders[..i]))
        invariant postProcessedFiles == old(postProcessedFiles)
      {
        found := CollectListing(finders[i], found, now, start, Seqs.Flatten(finders[..i]));
        assert finders[..i + 1][..i] == finders[..i];
        i := i + 1;
      }
      assert finders[..|finders|] == finders;
    }

    /** The post-processing loop of `collect`: goes through the results in
        order and stops at the first failure. It only logs what it meets, so
        it changes nothing, the post-processed list included. */
    method PostProcessAll(results: seq<PostProcessed>) returns (failure: Option<nat>)
      ensures failure == FirstFailure(results)
    {
      var k := 0;
      while k < |results|
        invariant 0 <= k <= |results|
        invariant forall m :: 0 <= m < k ==> !results[m].outcome.Raised?
      {
        if results[k].outcome.Raised? {
          FirstFailureAt(results, k);
          return Some(k);
        }
        k := k + 1;
      }
      return None;
    }

    /** `collect`. */
    method Collect(finders: seq<seq<SourceFile>>, results: seq<PostProcessed>, now: nat)
      returns (r: Result<Collected, CollectError>)
      modifies this
      ensures (State(), postProcessedFiles, r)
           == CollectStep(Opts(now), hasPostProcess, old(State()), old(postProcessedFiles), finders, results)
    {
      if symlink && !local {
        return Err(CollectorError(RemoteSymlinkMessage));
      }
      if clear {
        ClearDir("");
      }
      var found := CollectFinders(finders, now);
      if postProcess && hasPostProcess {
        var failure := PostProcessAll(results);
        if failure.Some? {
          var result := results[failure.value];
          return Err(PostProcessError(result.original, result.outcome.error));
        }
      }
      return Ok(Collected(copiedFiles + symlinkedFiles, unmodifiedFiles, postProcessedFiles));
    }

    /** `handle`: collects, then reports the summary line. */
    method Handle(finders: seq<seq<SourceFile>>, results: seq<PostProcessed>, now: nat)
      returns (r: Result<string, CollectError>)
      modifies this
      ensures var (t1, pp1, collected) :=
        CollectStep(Opts(now), hasPostProcess, old(State()), old(postProcessedFiles), finders, results);
        State() == t1 && postProcessedFiles == pp1 && r == Report(collected, symlink, DestinationPath())
    {
      var collected := Collect(finders, results, now);
      if collected.Err? {
        return Err(collected.error);
      }
      var c := collected.value;
      var destination := if isLocalStorage && location != "" then Some(location) else None;
      return Ok(Summary(|c.modified|, |c.unmodified|, |c.postProcessed|, symlink, destination));
    }
  }
}
