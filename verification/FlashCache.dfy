/** The remembered firmware key against the image the board really holds
    (benchmarking/run_benchmarks.py, run_scheduled_session and run_case_session). The key is
    recorded only when a session that flashed returns normally, so a session that raises
    after programming the board leaves a memory that may be wrong. */
module FlashCache {
  import opened Options
  import opened Ledger

  /** `recorded` is args._flashed_firmware_key; `board` is the image held, None when unknown or erased. */
  datatype FlashState = FlashState(recorded: Option<string>, board: Option<string>)

  datatype Session = Session(key: string, outcome: Outcome)

  predicate FlashNeeded(skipFlash: bool, st: FlashState, key: string) {
    !skipFlash && st.recorded != Some(key)
  }

  /** What a raising session that was to flash `key` leaves on the board. */
  function BoardAfter(board: Option<string>, key: string, fate: BoardFate): Option<string> {
    match fate case Untouched => board case Programmed => Some(key) case Erased => None
  }

  function Step(skipFlash: bool, st: FlashState, s: Session): FlashState {
    if !FlashNeeded(skipFlash, st, s.key) then st
    else match s.outcome
      case Returned(_) => FlashState(Some(s.key), Some(s.key))
      case Raised(_, fate) => st.(board := BoardAfter(st.board, s.key, fate))
  }

  /** State after the first `n` sessions. */
  function Run(skipFlash: bool, st: FlashState, sessions: seq<Session>, n: nat): FlashState
    requires n <= |sessions|
  {
    if n == 0 then st else Step(skipFlash, Run(skipFlash, st, sessions, n - 1), sessions[n - 1])
  }

  /** A remembered key tells the truth about the board. */
  predicate Sound(st: FlashState) {
    st.recorded.Some? ==> st.board == st.recorded
  }

  /** The session overwrites or erases a board whose old image is still on record. */
  predicate Stale(skipFlash: bool, st: FlashState, s: Session) {
    && FlashNeeded(skipFlash, st, s.key)
    && st.recorded.Some?
    && s.outcome.Raised? && s.outcome.fate != Untouched
  }

  predicate Reflashed(skipFlash: bool, st: FlashState, s: Session) {
    FlashNeeded(skipFlash, st, s.key) && s.outcome.Returned?
  }

  predicate StaleAt(skipFlash: bool, st: FlashState, sessions: seq<Session>, j: nat)
    requires j < |sessions|
  {
    Stale(skipFlash, Run(skipFlash, st, sessions, j), sessions[j])
  }

  predicate ReflashedAt(skipFlash: bool, st: FlashState, sessions: seq<Session>, j: nat)
    requires j < |sessions|
  {
    Reflashed(skipFlash, Run(skipFlash, st, sessions, j), sessions[j])
  }

  /** Session `j` made the record wrong and no session in (j, n) has put it right. */
  predicate StaleSince(skipFlash: bool, st: FlashState, sessions: seq<Session>, j: nat, n: nat)
    requires j < n <= |sessions|
  {
    StaleAt(skipFlash, st, sessions, j) &&
    forall m :: j < m < n ==> !ReflashedAt(skipFlash, st, sessions, m)
  }

  /** Over every schedule: the record is wrong exactly when some session raised after touching a
      board with a key on record and no later session has reflashed it. */
  lemma {:induction false} RecordIsWrongExactly(skipFlash: bool, st: FlashState, sessions: seq<Session>, n: nat)
    requires n <= |sessions| && Sound(st)
    ensures !Sound(Run(skipFlash, st, sessions, n)) <==>
            exists j: nat :: j < n && StaleSince(skipFlash, st, sessions, j, n)
    decreases n
  {
    if n == 0 {
    } else {
      RecordIsWrongExactly(skipFlash, st, sessions, n - 1);
      var before := Run(skipFlash, st, sessions, n - 1);
      var s := sessions[n - 1];
      if !Sound(before) && !Reflashed(skipFlash, before, s) {
        var j: nat :| j < n - 1 && StaleSince(skipFlash, st, sessions, j, n - 1);
        assert StaleSince(skipFlash, st, sessions, j, n) by {
          assert !ReflashedAt(skipFlash, st, sessions, n - 1);
        }
        StaysWrong(skipFlash, before, s);
      } else if Stale(skipFlash, before, s) {
        assert StaleAt(skipFlash, st, sessions, n - 1);
        assert StaleSince(skipFlash, st, sessions, n - 1, n);
      } else {
        assert Sound(Run(skipFlash, st, sessions, n));
        forall j: nat | j < n && StaleSince(skipFlash, st, sessions, j, n) ensures false {
          assert j < n - 1 ==> !ReflashedAt(skipFlash, st, sessions, n - 1);
          assert j < n - 1 ==> StaleSince(skipFlash, st, sessions, j, n - 1);
        }
      }
    }
  }

  lemma StaysWrong(skipFlash: bool, st: FlashState, s: Session)
    requires !Sound(st) && !Reflashed(skipFlash, st, s)
    ensures !Sound(Step(skipFlash, st, s))
  {}

  /** With --skip-flash no session touches the board or the record. */
  lemma {:induction false} SkipFlashTouchesNothing(st: FlashState, sessions: seq<Session>, n: nat)
    requires n <= |sessions|
    ensures Run(true, st, sessions, n) == st && Flashes(true, st, sessions, n) == 0
  {
    if n == 0 {
    } else {
      SkipFlashTouchesNothing(st, sessions, n - 1);
    }
  }

  /** The session returned attempts measured on an image other than its case's own. */
  predicate RanOnWrongImage(skipFlash: bool, st: FlashState, sessions: seq<Session>, k: nat)
    requires k < |sessions|
  {
    sessions[k].outcome.Returned? && Run(skipFlash, st, sessions, k + 1).board != Some(sessions[k].key)
  }

  /** Without --skip-flash, a returned session ran on the wrong image exactly when the key on
      record was its own, so it did not flash, and the record had gone stale. */
  lemma WrongImageExactly(st: FlashState, sessions: seq<Session>, k: nat)
    requires k < |sessions| && Sound(st)
    ensures RanOnWrongImage(false, st, sessions, k) <==>
            (&& sessions[k].outcome.Returned?
             && Run(false, st, sessions, k).recorded == Some(sessions[k].key)
             && exists j: nat :: j < k && StaleSince(false, st, sessions, j, k))
  {
    RecordIsWrongExactly(false, st, sessions, k);
  }

  /** When no session raises after touching the board, the record is always true and every
      session that returns ran on its own case's firmware. */
  lemma {:induction false} CarefulRunsAreSound(st: FlashState, sessions: seq<Session>)
    requires Sound(st)
    requires forall s <- sessions :: s.outcome.Raised? ==> s.outcome.fate == Untouched
    ensures forall n: nat :: n <= |sessions| ==> Sound(Run(false, st, sessions, n))
    ensures forall k: nat :: k < |sessions| ==> !RanOnWrongImage(false, st, sessions, k)
  {
    forall n: nat | n <= |sessions| ensures Sound(Run(false, st, sessions, n)) {
      RecordIsWrongExactly(false, st, sessions, n);
    }
    forall k: nat | k < |sessions| ensures !RanOnWrongImage(false, st, sessions, k) {
      WrongImageExactly(st, sessions, k);
      assert Sound(Run(false, st, sessions, k));
      RecordIsWrongExactly(false, st, sessions, k);
    }
  }

  /** The hypothesis is needed: A runs, B is flashed but its session raises, A runs again on B. */
  lemma RaiseAfterFlashMisleads(rows: seq<Attempt>, board: Option<string>)
    ensures
      var sessions := [Session("A", Returned(rows)), Session("B", Raised("", Programmed)), Session("A", Returned(rows))];
      RanOnWrongImage(false, FlashState(None, board), sessions, 2)
  {
    var sessions := [Session("A", Returned(rows)), Session("B", Raised("", Programmed)), Session("A", Returned(rows))];
    var st := FlashState(None, board);
    assert Run(false, st, sessions, 0) == st;
    assert Run(false, st, sessions, 1) == FlashState(Some("A"), Some("A"));
    assert "A"[0] != "B"[0];
    assert Run(false, st, sessions, 2) == FlashState(Some("A"), Some("B"));
    assert Run(false, st, sessions, 3) == FlashState(Some("A"), Some("B"));
  }

  // ----- how often the board is programmed -----

  /** Times the board was programmed or erased in the first `n` sessions. */
  function Flashes(skipFlash: bool, st: FlashState, sessions: seq<Session>, n: nat): nat
    requires n <= |sessions|
  {
    if n == 0 then 0
    else
      var before := Run(skipFlash, st, sessions, n - 1);
      var s := sessions[n - 1];
      var touches := FlashNeeded(skipFlash, before, s.key) && (s.outcome.Returned? || s.outcome.fate != Untouched);
      Flashes(skipFlash, st, sessions, n - 1) + if touches then 1 else 0
  }

  /** Keys of the sessions among the first `n` that returned, in order. */
  function ReturnedKeys(sessions: seq<Session>, n: nat): seq<string>
    requires n <= |sessions|
  {
    if n == 0 then []
    else ReturnedKeys(sessions, n - 1) + if sessions[n - 1].outcome.Returned? then [sessions[n - 1].key] else []
  }

  /** Number of maximal runs of equal neighbours. */
  function EqualRuns(keys: seq<string>): nat {
    if |keys| <= 1 then |keys|
    else EqualRuns(keys[..|keys| - 1]) + if keys[|keys| - 1] == keys[|keys| - 2] then 0 else 1
  }

  function WastedFlashes(st: FlashState, sessions: seq<Session>, n: nat): nat
    requires n <= |sessions|
  {
    if n == 0 then 0
    else
      var s := sessions[n - 1];
      var wasted := FlashNeeded(false, Run(false, st, sessions, n - 1), s.key) && s.outcome.Raised? && s.outcome.fate != Untouched;
      WastedFlashes(st, sessions, n - 1) + if wasted then 1 else 0
  }

  function LastOf(keys: seq<string>): Option<string> {
    if keys == [] then None else Some(keys[|keys| - 1])
  }

  lemma {:induction false} RecordIsLastReturned(board: Option<string>, sessions: seq<Session>, n: nat)
    requires n <= |sessions|
    ensures Run(false, FlashState(None, board), sessions, n).recorded == LastOf(ReturnedKeys(sessions, n))
  {
    if n == 0 {
    } else {
      RecordIsLastReturned(board, sessions, n - 1);
    }
  }

  lemma EqualRunsSnoc(keys: seq<string>, key: string)
    ensures EqualRuns(keys + [key]) == EqualRuns(keys) + if LastOf(keys) == Some(key) then 0 else 1
  {
    var longer := keys + [key];
    assert longer[..|longer| - 1] == keys;
  }

  /** A session that returns adds a flash exactly when it adds a run of keys. */
  lemma ReturnedFlash(st: FlashState, sessions: seq<Session>, n: nat)
    requires n < |sessions| && Run(false, st, sessions, n).recorded == LastOf(ReturnedKeys(sessions, n))
    requires sessions[n].outcome.Returned?
    ensures Flashes(false, st, sessions, n + 1) - Flashes(false, st, sessions, n)
         == EqualRuns(ReturnedKeys(sessions, n + 1)) - EqualRuns(ReturnedKeys(sessions, n))
    ensures WastedFlashes(st, sessions, n + 1) == WastedFlashes(st, sessions, n)
  {
    EqualRunsSnoc(ReturnedKeys(sessions, n), sessions[n].key);
    assert ReturnedKeys(sessions, n + 1) == ReturnedKeys(sessions, n) + [sessions[n].key];
  }

  /** One that raises adds a flash exactly when it wastes one. */
  lemma RaisedFlash(st: FlashState, sessions: seq<Session>, n: nat)
    requires n < |sessions| && sessions[n].outcome.Raised?
    ensures Flashes(false, st, sessions, n + 1) - Flashes(false, st, sessions, n)
         == WastedFlashes(st, sessions, n + 1) - WastedFlashes(st, sessions, n)
    ensures ReturnedKeys(sessions, n + 1) == ReturnedKeys(sessions, n)
  {}

  /** Over every schedule from a fresh run: the board is programmed once per maximal run of equal
      keys among the sessions that return, plus once per session that raised after touching it. */
  lemma {:induction false} FlashCount(board: Option<string>, sessions: seq<Session>, n: nat)
    requires n <= |sessions|
    ensures Flashes(false, FlashState(None, board), sessions, n)
         == EqualRuns(ReturnedKeys(sessions, n)) + WastedFlashes(FlashState(None, board), sessions, n)
  {
    if n == 0 {
    } else {
      FlashCount(board, sessions, n - 1);
      RecordIsLastReturned(board, sessions, n - 1);
      if sessions[n - 1].outcome.Returned? {
        ReturnedFlash(FlashState(None, board), sessions, n - 1);
      } else {
        RaisedFlash(FlashState(None, board), sessions, n - 1);
      }
    }
  }

  function Keys(sessions: seq<Session>): seq<string> {
    seq(|sessions|, k requires 0 <= k < |sessions| => sessions[k].key)
  }

  lemma {:induction false} AllReturned(board: Option<string>, sessions: seq<Session>, n: nat)
    requires n <= |sessions| && forall s <- sessions :: s.outcome.Returned?
    ensures ReturnedKeys(sessions, n) == Keys(sessions)[..n] && WastedFlashes(FlashState(None, board), sessions, n) == 0
  {
    if n == 0 {
    } else {
      AllReturned(board, sessions, n - 1);
    }
  }

  /** When every session returns, the board is programmed once per maximal run of equal keys in
      the schedule. */
  lemma FlashesAreKeyRuns(board: Option<string>, sessions: seq<Session>)
    requires forall s <- sessions :: s.outcome.Returned?
    ensures Flashes(false, FlashState(None, board), sessions, |sessions|) == EqualRuns(Keys(sessions))
  {
    FlashCount(board, sessions, |sessions|);
    AllReturned(board, sessions, |sessions|);
    assert Keys(sessions)[..|sessions|] == Keys(sessions);
  }
}
