/**
  The state of the journal component that its handlers update: the entry form,
  the user's stored signals, and the synchronization status and history.
 */
module Journal {
  import opened Wrappers
  import opened Strings
  import opened Detector
  import opened Generator

  /** The status line. Its four possible texts are fixed, so the model keeps which one is shown. */
  datatype Status = Blank | Detecting | Synchronized(category: Category) {
    function Text(): string {
      match this
      case Blank => ""
      case Detecting => "Detectando la sincronización..."
      case Synchronized(c) => c.Notice()
    }
  }

  /** An entry of the synchronization history. Its message is fixed by the stream
      that produced it; the server timestamp is not modelled. */
  datatype SyncRecord = SyncRecord(category: Category, solution: Option<string>) {
    function Message(): string { category.Message() }
  }

  /** The solution generated for a request's pair of signals. */
  function Solution(q: SyncRequest, generate: (Signal, Signal) -> Generation): Option<string> {
    SolutionText(generate(q.contraction, q.expansion))
  }

  /** The history entries for a run of requests, in order: each request's message
      with the solution generated for its pair of signals. */
  function Records(requests: seq<SyncRequest>, generate: (Signal, Signal) -> Generation): (r: seq<SyncRecord>)
    ensures |r| == |requests|
  {
    if requests == [] then []
    else [SyncRecord(requests[0].category, Solution(requests[0], generate))] + Records(requests[1..], generate)
  }

  /** Entry `i` carries request `i`'s stream and the solution for its pair. */
  lemma {:induction false} RecordsPointwise(requests: seq<SyncRequest>, generate: (Signal, Signal) -> Generation)
    ensures forall i :: 0 <= i < |requests| ==>
      Records(requests, generate)[i] == SyncRecord(requests[i].category, Solution(requests[i], generate))
  {
    if requests != [] {
      RecordsPointwise(requests[1..], generate);
    }
  }

  /** A request whose generation raised still gets its entry, with the error sentence. */
  lemma FailedGenerationRecordsError(q: SyncRequest, generate: (Signal, Signal) -> Generation)
    requires generate(q.contraction, q.expansion) == Raised
    ensures Written([q], generate) == [q]
    ensures Records([q], generate) == [SyncRecord(q.category, Some(ErrorText))]
  {
    assert [q][1..] == [];
  }

  lemma {:induction false} RecordsConcat(a: seq<SyncRequest>, b: seq<SyncRequest>, generate: (Signal, Signal) -> Generation)
    ensures Records(a + b, generate) == Records(a, generate) + Records(b, generate)
  {
    if a == [] {
      assert a + b == b;
    } else {
      assert (a + b)[0] == a[0];
      assert (a + b)[1..] == a[1..] + b;
      RecordsConcat(a[1..], b, generate);
    }
  }

  /** The requests whose history entries get written: the longest prefix whose
      solutions are all present. A missing solution text leaves an undefined field
      in the entry, the document store refuses the write, and the callback stops. */
  function Written(requests: seq<SyncRequest>, generate: (Signal, Signal) -> Generation): (w: seq<SyncRequest>)
    ensures |w| <= |requests| && w == requests[..|w|]
    ensures forall i :: 0 <= i < |w| ==> Solution(w[i], generate).Some?
    ensures w != requests ==> Solution(requests[|w|], generate).None?
  {
    if requests == [] || Solution(requests[0], generate).None? then []
    else [requests[0]] + Written(requests[1..], generate)
  }

  /** The requests whose blocks run: the written ones, then the refused one if any.
      A refused block has already shown its notice when its write fails. */
  function Attempted(requests: seq<SyncRequest>, generate: (Signal, Signal) -> Generation): seq<SyncRequest> {
    if requests == [] then []
    else if Solution(requests[0], generate).None? then [requests[0]]
    else [requests[0]] + Attempted(requests[1..], generate)
  }

  /** Attempted is Written followed by the first refused request. */
  lemma {:induction false} AttemptedExtendsWritten(requests: seq<SyncRequest>, generate: (Signal, Signal) -> Generation)
    ensures Written(requests, generate) == requests ==> Attempted(requests, generate) == requests
    ensures Written(requests, generate) != requests ==>
      Attempted(requests, generate) == requests[..|Written(requests, generate)| + 1]
  {
    if requests != [] && Solution(requests[0], generate).Some? {
      AttemptedExtendsWritten(requests[1..], generate);
      assert requests == [requests[0]] + requests[1..];
    }
  }

  /** Written over consecutive blocks: the second block is written only when every
      write of the first succeeded. */
  lemma {:induction false} WrittenConcat(a: seq<SyncRequest>, b: seq<SyncRequest>, generate: (Signal, Signal) -> Generation)
    ensures Written(a, generate) == a ==> Written(a + b, generate) == a + Written(b, generate)
    ensures Written(a, generate) != a ==> Written(a + b, generate) == Written(a, generate)
  {
    if a == [] {
      assert a + b == b;
    } else {
      var rest := a[1..] + b;
      assert (a + b)[0] == a[0] && (a + b)[1..] == rest;
      if Solution(a[0], generate).Some? {
        WrittenConcat(a[1..], b, generate);
        assert Written(a + b, generate) == [a[0]] + Written(rest, generate);
        assert Written(a, generate) == [a[0]] + Written(a[1..], generate);
        assert a == [a[0]] + a[1..];
      }
    }
  }

  /** Attempted over consecutive blocks: the second block runs only when every
      write of the first succeeded. */
  lemma {:induction false} AttemptedConcat(a: seq<SyncRequest>, b: seq<SyncRequest>, generate: (Signal, Signal) -> Generation)
    ensures Written(a, generate) == a ==> Attempted(a + b, generate) == a + Attempted(b, generate)
    ensures Written(a, generate) != a ==> Attempted(a + b, generate) == Attempted(a, generate)
  {
    if a == [] {
      assert a + b == b;
    } else {
      var rest := a[1..] + b;
      assert (a + b)[0] == a[0] && (a + b)[1..] == rest;
      if Solution(a[0], generate).Some? {
        AttemptedConcat(a[1..], b, generate);
        assert Attempted(a + b, generate) == [a[0]] + Attempted(rest, generate);
        assert Written(a, generate) == [a[0]] + Written(a[1..], generate);
        assert a == [a[0]] + a[1..];
      }
    }
  }

  /** The status after some blocks: the notice of the last one that ran, or the
      previous status when none did. */
  function FinalStatus(requests: seq<SyncRequest>, previous: Status): Status {
    if requests == [] then previous else Synchronized(requests[|requests| - 1].category)
  }

  lemma FinalStatusConcat(a: seq<SyncRequest>, b: seq<SyncRequest>, previous: Status)
    ensures FinalStatus(a + b, previous) == FinalStatus(b, FinalStatus(a, previous))
  {
  }

  /** Every entry that reaches the history carries a solution text. */
  lemma WrittenEntriesHaveText(requests: seq<SyncRequest>, generate: (Signal, Signal) -> Generation)
    ensures forall e :: e in Records(Written(requests, generate), generate) ==> e.solution.Some?
  {
    var w := Written(requests, generate);
    RecordsPointwise(w, generate);
  }

  class App {
    /** The signed-in user's id, absent until authentication completes. */
    var user: Option<string>
    var currentSignal: string
    var currentThought: string
    var currentFeeling: string
    var currentBodySensation: string
    var currentCategory: string
    /** The user's signals collection in the document store. It is unordered: the
        store delivers it in document-id order, not in the order of writing. */
    var stored: multiset<Signal>
    var isSyncing: bool
    var syncMessage: Status
    /** The user's synchronization history collection, in the order of writing. */
    var syncHistory: seq<SyncRecord>

    /** The form is in its initial state. */
    ghost predicate FormIsReset()
      reads this
    {
      && currentSignal == "" && currentThought == "" && currentFeeling == ""
      && currentBodySensation == "" && currentCategory == "Personal"
    }

    /** The signal the form would write. */
    ghost function Draft(): Signal
      reads this
    {
      Signal(Some(currentSignal), Some(currentThought), Some(currentFeeling),
             Some(currentBodySensation), Some(currentCategory))
    }

    /** The component's initial state, before authentication, over whatever the
        user's collections already hold in the store. */
    constructor (persisted: multiset<Signal>, history: seq<SyncRecord>)
      ensures FormIsReset()
      ensures user == None && stored == persisted
      ensures !isSyncing && syncMessage == Blank && syncHistory == history
    {
      user := None;
      currentSignal, currentThought, currentFeeling := "", "", "";
      currentBodySensation, currentCategory := "", "Personal";
      stored := persisted;
      isSyncing, syncMessage, syncHistory := false, Blank, history;
    }

    /** handleAddSignal: nothing happens without a user or when the event text trims
        to empty; otherwise the form's signal is written and, if the write succeeds,
        the form is reset. A failed write leaves everything as it was. */
    method AddSignal(writeSucceeds: bool) returns (added: bool)
      modifies this
      ensures added <==> old(user).Some? && old(Trim(currentSignal)) != [] && writeSucceeds
      ensures added ==> stored == old(stored) + multiset{old(Draft())} && FormIsReset()
      ensures !added ==> stored == old(stored) && Draft() == old(Draft())
      ensures user == old(user) && isSyncing == old(isSyncing)
      ensures syncMessage == old(syncMessage) && syncHistory == old(syncHistory)
    {
      added := false;
      if user.None? || Trim(currentSignal) == [] {
        return;
      }
      var signal := Signal(Some(currentSignal), Some(currentThought), Some(currentFeeling),
                           Some(currentBodySensation), Some(currentCategory));
      if !writeSucceeds {
        return;
      }
      stored := stored + multiset{signal};
      currentSignal := "";
      currentThought := "";
      currentFeeling := "";
      currentCategory := "Personal";
      currentBodySensation := "";
      added := true;
    }

    /** checkSynchronization as the snapshot listener calls it, with the documents
        the collection holds, in the order the store delivers them: with at least two
        signals it raises the syncing flag, shows the detecting line and schedules
        the evaluation; otherwise it does nothing. */
    method CheckSynchronization(snapshot: seq<Signal>) returns (scheduled: bool)
      requires multiset(snapshot) == stored
      modifies this
      ensures scheduled <==> |snapshot| >= 2
      ensures scheduled ==> isSyncing && syncMessage == Detecting
      ensures !scheduled ==> isSyncing == old(isSyncing) && syncMessage == old(syncMessage)
      ensures syncHistory == old(syncHistory) && stored == old(stored) && user == old(user)
      ensures Draft() == old(Draft())
    {
      scheduled := |snapshot| >= 2;
      if scheduled {
        isSyncing := true;
        syncMessage := Detecting;
      }
    }

    /** One stream's block of the scheduled evaluation. When the stream qualified,
        a solution is generated for its pair and its notice shown; then its entry is
        written to the history, which the store refuses when the solution text is
        missing. Returns whether the block completed. */
    method Synchronize(verdict: Option<SyncRequest>, generate: (Signal, Signal) -> Generation)
      returns (completed: bool)
      modifies this
      ensures completed <==> Written(AsSeq(verdict), generate) == AsSeq(verdict)
      ensures syncHistory == old(syncHistory) + Records(Written(AsSeq(verdict), generate), generate)
      ensures syncMessage == FinalStatus(Attempted(AsSeq(verdict), generate), old(syncMessage))
      ensures isSyncing == old(isSyncing) && stored == old(stored) && user == old(user)
      ensures Draft() == old(Draft())
    {
      completed := true;
      if verdict.Some? {
        var q := verdict.value;
        var solution := SolutionText(generate(q.contraction, q.expansion));
        syncMessage := Synchronized(q.category);
        if solution.None? {
          completed := false;
          return;
        }
        syncHistory := syncHistory + [SyncRecord(q.category, solution)];
      }
    }

    /** The two blocks of the scheduled evaluation, for the given verdicts: the
        Personal block, then the Financiero block. A refused history write ends the
        callback there, with the syncing flag still raised; otherwise the flag is
        lowered at the end. */
    method RunBlocks(personal: Option<SyncRequest>, financial: Option<SyncRequest>,
                     generate: (Signal, Signal) -> Generation)
      modifies this
      ensures var rs := AsSeq(personal) + AsSeq(financial);
        && syncHistory == old(syncHistory) + Records(Written(rs, generate), generate)
        && syncMessage == FinalStatus(Attempted(rs, generate), old(syncMessage))
        && (Written(rs, generate) == rs ==> !isSyncing)
        && (Written(rs, generate) != rs ==> isSyncing == old(isSyncing))
      ensures stored == old(stored) && user == old(user)
      ensures Draft() == old(Draft())
    {
      var p, f := AsSeq(personal), AsSeq(financial);
      WrittenConcat(p, f, generate);
      AttemptedConcat(p, f, generate);
      RecordsConcat(p, Written(f, generate), generate);
      FinalStatusConcat(p, Attempted(f, generate), old(syncMessage));
      AttemptedExtendsWritten(p, generate);
      var completed := Synchronize(personal, generate);
      if completed {
        completed := Synchronize(financial, generate);
      }
      if completed {
        isSyncing := false;
      }
    }

    /** The scheduled evaluation of a snapshot: the blocks run for the requests of
        Evaluate, in its order. Only a snapshot of at least two signals schedules it. */
    method RunSynchronization(snapshot: seq<Signal>, generate: (Signal, Signal) -> Generation)
      requires |snapshot| >= 2
      modifies this
      ensures syncHistory == old(syncHistory) + Records(Written(Evaluate(snapshot), generate), generate)
      ensures syncMessage == FinalStatus(Attempted(Evaluate(snapshot), generate), old(syncMessage))
      ensures Written(Evaluate(snapshot), generate) == Evaluate(snapshot) ==> !isSyncing
      ensures Written(Evaluate(snapshot), generate) != Evaluate(snapshot) ==> isSyncing == old(isSyncing)
      ensures stored == old(stored) && user == old(user)
      ensures Draft() == old(Draft())
    {
      RunBlocks(Verdict(snapshot, Personal), Verdict(snapshot, Financiero), generate);
    }
  }
}
