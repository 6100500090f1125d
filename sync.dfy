/** ensureIndexesUpdated: updates the local copy of every configured index,
    keeps going past failures, then reports what changed in the default index
    and returns one error naming every index that failed. */
module Sync {
  import opened Types
  import opened Seqs
  import opened Diff

  /** The confirmation written to standard error once every index was tried. */
  const Confirmation := "Updated the local copy of plugin index.\n"

  /** The errors ensureIndexesUpdated can return, each wrapping its cause. */
  datatype Failure =
    | ListIndexesFailed(cause: Error)
    | PostLoadFailed(cause: Error)
    | ReceiptsLoadFailed(cause: Error)
    | IndexesFailed(cause: Error, failed: seq<string>)

  const IndexesFailedPrefix := "failed to update the following indexes: "

  /** The error text: the wrapping message, a colon and a space, the cause. */
  function Message(f: Failure): string
  {
    match f
    case ListIndexesFailed(e) => "failed to list indexes: " + e.message
    case PostLoadFailed(e) => "failed to load plugin index after update: " + e.message
    case ReceiptsLoadFailed(e) => "failed to load installed plugins list after update: " + e.message
    case IndexesFailed(e, names) => IndexesFailedPrefix + Join(names, ", ") + ("\n" + ": " + e.message)
  }

  /** Wrapping the first sync error with the failed names; wrapping no error
      gives no error. */
  function WrapIndexesFailed(returnErr: Option<Error>, failed: seq<string>): (r: Option<Failure>)
    ensures r.None? <==> returnErr.None?
  {
    match returnErr
    case None => None
    case Some(e) => Some(IndexesFailed(e, failed))
  }

  /** The indexes whose update failed, in configuration order. */
  function FailingIndexes(idxs: seq<Index>, sync: Index -> Option<Error>): (r: seq<Index>)
    ensures forall x :: x in r <==> x in idxs && sync(x).Some?
  {
    Filter(idxs, (x: Index) => sync(x).Some?)
  }

  /** The `failed` slice the loop builds: names of failing indexes, in order. */
  function FailedNames(idxs: seq<Index>, sync: Index -> Option<Error>): seq<string>
  {
    Map(FailingIndexes(idxs, sync), (x: Index) => x.name)
  }

  /** The `returnErr` the loop keeps: the error of the first index that failed. */
  function FirstError(idxs: seq<Index>, sync: Index -> Option<Error>): (r: Option<Error>)
    ensures r.None? <==> forall i :: 0 <= i < |idxs| ==> sync(idxs[i]).None?
    ensures r.Some? ==> exists i :: 0 <= i < |idxs| && sync(idxs[i]) == r
                                    && forall j :: 0 <= j < i ==> sync(idxs[j]).None?
    decreases |idxs|
  {
    if idxs == [] then None
    else
      var earlier := FirstError(idxs[..|idxs| - 1], sync);
      if earlier.Some? then earlier else sync(idxs[|idxs| - 1])
  }

  lemma FailedNamesStep(idxs: seq<Index>, sync: Index -> Option<Error>, i: nat)
    requires i < |idxs|
    ensures FailedNames(idxs[..i + 1], sync)
         == FailedNames(idxs[..i], sync) + (if sync(idxs[i]).Some? then [idxs[i].name] else [])
  {
    FilterStep(idxs, i, (x: Index) => sync(x).Some?);
  }

  /** The installed plugins by name, from the receipts in order (a later receipt
      with the same name overwrites an earlier one). */
  function InstalledMap(receipts: seq<Receipt>): (m: map<string, string>)
    ensures forall k :: 0 <= k < |receipts| ==> receipts[k].name in m
    ensures forall n :: n in m ==> exists k :: 0 <= k < |receipts| && receipts[k].name == n && m[n] == receipts[k].version
    decreases |receipts|
  {
    if receipts == [] then map[]
    else
      var last := receipts[|receipts| - 1];
      InstalledMap(receipts[..|receipts| - 1])[last.name := last.version]
  }

  /** The update command. `preUpdateIndex` is what the scanner returned for the
      default index before the update (its error is ignored); `indexes` is the
      configured index list or the error listing it; `sync(idx)` is the outcome
      of updating idx's local copy; `posUpdateIndex` and `receipts` are what
      loading the default index again and reading the receipts return. The
      result is the indexes whose local copy the loop tried to update, in the
      order tried, the lines written to standard error and the returned error. */
  method EnsureIndexesUpdated(
    preUpdateIndex: seq<Plugin>,
    indexes: Result<seq<Index>>,
    sync: Index -> Option<Error>,
    posUpdateIndex: Result<seq<Plugin>>,
    receipts: Result<seq<Receipt>>)
    returns (attempted: seq<Index>, stderr: seq<string>, err: Option<Failure>)
    ensures indexes.Err? ==> attempted == [] && stderr == [] && err == Some(ListIndexesFailed(indexes.error))
    ensures indexes.Ok? ==> attempted == indexes.value
    ensures indexes.Ok? ==> |stderr| > 0 && stderr[0] == Confirmation
    ensures indexes.Ok? && |preUpdateIndex| == 0 ==> stderr == [Confirmation] && err.None?
    ensures indexes.Ok? && |preUpdateIndex| > 0 && posUpdateIndex.Err? ==>
      stderr == [Confirmation] && err == Some(PostLoadFailed(posUpdateIndex.error))
    ensures indexes.Ok? && |preUpdateIndex| > 0 && posUpdateIndex.Ok? && receipts.Err? ==>
      stderr == [Confirmation] && err == Some(ReceiptsLoadFailed(receipts.error))
    ensures indexes.Ok? && |preUpdateIndex| > 0 && posUpdateIndex.Ok? && receipts.Ok? ==>
      && stderr == [Confirmation] + ReportLines(preUpdateIndex, posUpdateIndex.value, InstalledMap(receipts.value))
      && err == WrapIndexesFailed(FirstError(indexes.value, sync), FailedNames(indexes.value, sync))
  {
    if indexes.Err? {
      return [], [], Some(ListIndexesFailed(indexes.error));
    }
    var idxs := indexes.value;

    attempted := [];
    var failed: seq<string> := [];
    var returnErr: Option<Error> := None;
    for i := 0 to |idxs|
      invariant attempted == idxs[..i]
      invariant failed == FailedNames(idxs[..i], sync)
      invariant returnErr == FirstError(idxs[..i], sync)
    {
      FailedNamesStep(idxs, sync, i);
      assert idxs[..i + 1][..i] == idxs[..i];
      attempted := attempted + [idxs[i]];
      var outcome := sync(idxs[i]);
      if outcome.Some? {
        failed := failed + [idxs[i].name];
        if returnErr.None? {
          returnErr := outcome;
        }
      }
    }
    assert idxs[..|idxs|] == idxs;

    stderr := [Confirmation];

    if |preUpdateIndex| == 0 {
      return attempted, stderr, None;
    }

    if posUpdateIndex.Err? {
      return attempted, stderr, Some(PostLoadFailed(posUpdateIndex.error));
    }

    if receipts.Err? {
      return attempted, stderr, Some(ReceiptsLoadFailed(receipts.error));
    }
    var installedPlugins: map<string, string> := map[];
    for i := 0 to |receipts.value|
      invariant installedPlugins == InstalledMap(receipts.value[..i])
    {
      assert receipts.value[..i + 1][..i] == receipts.value[..i];
      var receipt := receipts.value[i];
      installedPlugins := installedPlugins[receipt.name := receipt.version];
    }
    assert receipts.value[..|receipts.value|] == receipts.value;

    var report := ShowUpdatedPlugins(preUpdateIndex, posUpdateIndex.value, installedPlugins);
    stderr := stderr + report;

    return attempted, stderr, WrapIndexesFailed(returnErr, failed);
  }

  // Properties of the sync loop and the returned error.

  /** `failed` names exactly the indexes that failed, however many did and
      wherever they stand: a failure does not stop the later indexes. */
  lemma FailedNamesExact(idxs: seq<Index>, sync: Index -> Option<Error>, n: string)
    ensures n in FailedNames(idxs, sync) <==> exists i :: 0 <= i < |idxs| && idxs[i].name == n && sync(idxs[i]).Some?
  {
    var failing := FailingIndexes(idxs, sync);
    if n in FailedNames(idxs, sync) {
      var k :| 0 <= k < |failing| && failing[k].name == n;
      assert failing[k] in failing;
    }
    if exists i :: 0 <= i < |idxs| && idxs[i].name == n && sync(idxs[i]).Some? {
      var i :| 0 <= i < |idxs| && idxs[i].name == n && sync(idxs[i]).Some?;
      assert idxs[i] in failing;
      var k :| 0 <= k < |failing| && failing[k] == idxs[i];
      assert FailedNames(idxs, sync)[k] == n;
    }
  }

  /** The failing indexes keep configuration order, each failing entry counted
      as often as it is configured. */
  lemma FailingIndexesInOrder(idxs: seq<Index>, sync: Index -> Option<Error>, x: Index)
    ensures Subsequence(FailingIndexes(idxs, sync), idxs)
    ensures multiset(FailingIndexes(idxs, sync))[x] == if sync(x).Some? then multiset(idxs)[x] else 0
  {
    var failing := (x: Index) => sync(x).Some?;
    assert FailingIndexes(idxs, sync) == Filter(idxs, failing);
    FilterIsSubsequence(idxs, failing);
    FilterCounts(idxs, failing, x);
  }

  /** The returned error is nil exactly when no index failed. */
  lemma NoErrorIffNoFailures(idxs: seq<Index>, sync: Index -> Option<Error>)
    ensures WrapIndexesFailed(FirstError(idxs, sync), FailedNames(idxs, sync)).None?
        <==> FailedNames(idxs, sync) == []
  {
    var failing := FailingIndexes(idxs, sync);
    if failing != [] {
      assert failing[0] in failing;
      var i :| 0 <= i < |idxs| && idxs[i] == failing[0];
    } else {
      forall i | 0 <= i < |idxs|
        ensures sync(idxs[i]).None?
      {
        assert idxs[i] in idxs;
        assert idxs[i] !in failing;
      }
    }
  }

  /** The error message names every failed index, verbatim, at its place in
      the comma-separated list. */
  lemma MessageListsFailed(e: Error, names: seq<string>, k: nat)
    requires k < |names|
    ensures var msg := Message(IndexesFailed(e, names));
      var at := |IndexesFailedPrefix| + JoinOffset(names, ", ", k);
      at + |names[k]| <= |msg| && msg[at..at + |names[k]|] == names[k]
  {
    var joined := Join(names, ", ");
    JoinListsEach(names, ", ", k);
    var off := JoinOffset(names, ", ", k);
    SliceOfMiddle(IndexesFailedPrefix, joined, "\n" + ": " + e.message, off, off + |names[k]|);
  }

  /** Two indexes, the first updates and the second does not: the failed list
      names the second and not the first, and the second's error is kept. */
  lemma OneOfTwoFails(a: Index, b: Index, sync: Index -> Option<Error>)
    requires a.name != b.name
    requires sync(a).None? && sync(b).Some?
    ensures FailedNames([a, b], sync) == [b.name]
    ensures a.name !in FailedNames([a, b], sync)
    ensures FirstError([a, b], sync) == sync(b)
  {
    var idxs := [a, b];
    FailedNamesStep(idxs, sync, 0);
    FailedNamesStep(idxs, sync, 1);
    assert idxs[..0] == [] && idxs[..2] == idxs;
    assert idxs[..1] == [a];
  }
}
