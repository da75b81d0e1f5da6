/** The event machine of the Android audio output (`OboeLogic` in src/audio/oboe.rs). */
module OboeLogic {
  import opened Sequences
  import opened Messages

  /** The normal mode is never chosen. */
  datatype OboeMode = Direct(startTimer: bool, senderId: ConnectionId) | Callback

  datatype OboeEvent =
    | AudioCommand(event: AudioEvent)
    | BufferingDone
    | DataReaderReadingError
    | DataReaderSendingError
    | UnderrunCheckTimer(secondPassed: bool, callbackError: bool)
    | RequestQuit

  /** Whether the data connection takes its timeout and its nonblocking mode. */
  datatype Answers = Answers(timeoutSet: bool, nonblockingSet: bool)

  datatype PanicReason = OpusStream | NoAudioInfo | SecondDataReaderThread | SecondOboeCppThread

  // ----- Which commands may follow which -----

  /** Whose stream plays after these commands. */
  function Player(history: seq<AudioEvent>): Option<ConnectionId> {
    if history == [] then None
    else
      match history[|history| - 1]
      case StartPlaying(_, _, _, _, senderId) => Some(senderId)
      case StopPlayingAudio => None
      case _ => Player(history[..|history| - 1])
  }

  predicate Playing(history: seq<AudioEvent>) {
    Player(history).Some?
  }

  /** No start follows another one without a stop between them. */
  ghost predicate Exclusive(history: seq<AudioEvent>) {
    forall i :: 0 <= i < |history| && history[i].StartPlaying? ==> !Playing(history[..i])
  }

  /** The same, for any two starts. */
  lemma {:induction false} StopBetween(history: seq<AudioEvent>, i: nat, j: nat)
    requires Exclusive(history)
    requires i < j < |history| && history[i].StartPlaying? && history[j].StartPlaying?
    ensures exists k :: i < k < j && history[k].StopPlayingAudio?
  {
    if forall k :: i < k < j ==> !history[k].StopPlayingAudio? {
      StillPlaying(history, i, j);
      assert false;
    }
  }

  lemma {:induction false} StillPlaying(history: seq<AudioEvent>, i: nat, j: nat)
    requires i < j <= |history| && history[i].StartPlaying?
    requires forall k :: i < k < j ==> !history[k].StopPlayingAudio?
    ensures Playing(history[..j])
    decreases j
  {
    var front := history[..j];
    assert front[|front| - 1] == history[j - 1] && front[..|front| - 1] == history[..j - 1];
    if i < j - 1 && !history[j - 1].StartPlaying? {
      StillPlaying(history, i, j - 1);
    }
  }

  lemma PlayerAppend(history: seq<AudioEvent>, e: AudioEvent)
    ensures Player(history + [e]) ==
              if e.StartPlaying? then Some(e.senderId) else if e.StopPlayingAudio? then None else Player(history)
  {
    assert (history + [e])[..|history|] == history;
  }

  lemma ExclusiveAppend(history: seq<AudioEvent>, e: AudioEvent)
    ensures Exclusive(history + [e]) <==> Exclusive(history) && (e.StartPlaying? ==> !Playing(history))
  {
    var longer := history + [e];
    forall i | 0 <= i <= |history| ensures longer[..i] == history[..i] {
    }
    if Exclusive(longer) && e.StartPlaying? {
      assert longer[|history|].StartPlaying? && longer[..|history|] == history;
    }
    if Exclusive(longer) {
      forall i | 0 <= i < |history| && history[i].StartPlaying? ensures !Playing(history[..i]) {
        assert longer[i].StartPlaying?;
      }
    }
    assert longer[..|history|] == history;
  }

  lemma ExclusivePrefix(front: seq<AudioEvent>, history: seq<AudioEvent>)
    requires front <= history && Exclusive(history)
    ensures Exclusive(front)
  {
    forall i | 0 <= i < |front| && front[i].StartPlaying? ensures !Playing(front[..i]) {
      assert front[..i] == history[..i] && history[i].StartPlaying?;
    }
  }

  // ----- The machine on values -----

  /** `Ignored` is the branch for a second stream at the same time. */
  datatype Result = Next(mode: Option<OboeMode>, toRouter: seq<RouterMessage>) | Ignored | Panicked(reason: PanicReason)

  function Play(mode: Option<OboeMode>, e: AudioEvent, a: Answers): Result
    requires e.StartPlaying?
  {
    if e.decodeOpus then Panicked(OpusStream)
    else if e.framesPerBurst.None? then Panicked(NoAudioInfo)
    else if mode.Some? then Ignored
    else if e.handle.Reliable() then
      Next(if a.timeoutSet && a.nonblockingSet then Some(Direct(true, e.senderId)) else None, [])
    else if a.timeoutSet then Next(Some(Callback), [Dm(SendStartAudioStream(e.senderId))])
    else Next(None, [])
  }

  function Command(mode: Option<OboeMode>, e: AudioEvent, a: Answers): Result {
    match e
    case StartPlaying(_, _, _, _, _) => Play(mode, e, a)
    case StopPlayingAudio => Next(None, [])
    case _ => Next(mode, [])
  }

  /** What the machine does on any other event. */
  function Notice(mode: Option<OboeMode>, e: OboeEvent): (r: Result)
    ensures r.Next?
  {
    match e
    case AudioCommand(_) => Next(mode, [])
    case RequestQuit => Next(mode, [])
    case BufferingDone => Next(mode, [])
    case DataReaderReadingError => Next(None, [])
    case DataReaderSendingError => Next(None, [])
    case UnderrunCheckTimer(secondPassed, callbackError) =>
      if mode.None? then Next(None, [])
      else
        var due := mode.value.Direct? && mode.value.startTimer && secondPassed;
        Next(if callbackError then None else if due then Some(Direct(false, mode.value.senderId)) else mode,
             if due then [Dm(SendStartAudioStream(mode.value.senderId))] else [])
  }

  // ----- When the output plays, and when it asks for the sender's audio -----

  /** A run of the machine: its mode and all that it has sent, unless it has panicked. */
  datatype OboeRun = OboeRun(mode: Option<OboeMode>, sent: seq<RouterMessage>) | Halted

  function StepRun(run: OboeRun, e: OboeEvent, a: Answers): OboeRun {
    if run.Halted? then Halted
    else
      match if e.AudioCommand? then Command(run.mode, e.event, a) else Notice(run.mode, e)
      case Next(mode, messages) => OboeRun(mode, run.sent + messages)
      case Ignored => run
      case Panicked(_) => Halted
  }

  function RunOf(events: seq<OboeEvent>, answers: nat -> Answers): OboeRun {
    if events == [] then OboeRun(None, [])
    else
      var last := |events| - 1;
      StepRun(RunOf(events[..last], answers), events[last], answers(last))
  }

  /** A command to play that the data connection allows. */
  predicate Starts(e: OboeEvent, a: Answers) {
    e.AudioCommand? && e.event.StartPlaying? && a.timeoutSet && (e.event.handle.UdpHandle? || a.nonblockingSet)
  }

  /** The command to stop, a failed reading thread, or an error in the callback. */
  predicate Silences(e: OboeEvent) {
    match e
    case AudioCommand(command) => command.StopPlayingAudio?
    case DataReaderReadingError => true
    case DataReaderSendingError => true
    case UnderrunCheckTimer(_, callbackError) => callbackError
    case _ => false
  }

  predicate SecondPassed(e: OboeEvent) {
    e.UnderrunCheckTimer? && e.secondPassed
  }

  /** The stream that was started at `j` has not been silenced. */
  ghost predicate ActiveSince(events: seq<OboeEvent>, answers: nat -> Answers, j: nat) {
    && j < |events|
    && Starts(events[j], answers(j))
    && forall k :: j < k < |events| ==> !Silences(events[k])
  }

  /** And nothing was active before it. */
  ghost predicate ActiveFrom(events: seq<OboeEvent>, answers: nat -> Answers, j: nat) {
    ActiveSince(events, answers, j) && forall i: nat :: i < j ==> !ActiveSince(events[..j], answers, i)
  }

  /** The timer of a direct stream has not yet found its first second passed. */
  ghost predicate SecondAhead(events: seq<OboeEvent>, j: nat) {
    forall k :: j < k < |events| ==> !SecondPassed(events[k])
  }

  /** The mode belongs to the stream started at `j`. */
  ghost predicate ModeOf(mode: OboeMode, events: seq<OboeEvent>, j: nat)
    requires j < |events| && events[j].AudioCommand? && events[j].event.StartPlaying?
  {
    if events[j].event.handle.UdpHandle? then mode == Callback
    else mode.Direct? && mode.senderId == events[j].event.senderId && (mode.startTimer <==> SecondAhead(events, j))
  }

  /**
   The output is active exactly when some stream has been started and not silenced
   since; `j` is the first such start. A UDP stream is played from blocks, any other
   one directly, by whoever asked for it.
   */
  lemma {:induction false} ActiveExactly(events: seq<OboeEvent>, answers: nat -> Answers) returns (j: nat)
    requires RunOf(events, answers).OboeRun?
    ensures var run := RunOf(events, answers);
            && (run.mode.Some? ==> ActiveFrom(events, answers, j) && ModeOf(run.mode.value, events, j))
            && (run.mode.None? ==> forall i: nat :: !ActiveSince(events, answers, i))
  {
    j := 0;
    if events != [] {
      var last := |events| - 1;
      var front, e := events[..last], events[last];
      var before := RunOf(front, answers);
      j := ActiveExactly(front, answers);
      ActiveEarlier(events, answers);
      if before.mode.None? {
        j := last;
      } else {
        ActiveLater(events, answers, j);
      }
    }
  }

  /** Being active with one more event. */
  lemma ActiveEarlier(events: seq<OboeEvent>, answers: nat -> Answers)
    requires events != []
    ensures var last := |events| - 1;
            && (forall i: nat :: i < last ==>
                  (ActiveSince(events, answers, i) <==> ActiveSince(events[..last], answers, i) && !Silences(events[last])))
            && (ActiveSince(events, answers, last) <==> Starts(events[last], answers(last)))
  {
    var last := |events| - 1;
    var front := events[..last];
    forall i: nat | i < last
      ensures ActiveSince(events, answers, i) <==> ActiveSince(front, answers, i) && !Silences(events[last])
    {
      assert front[i] == events[i];
      if ActiveSince(front, answers, i) && !Silences(events[last]) {
        forall k | i < k < |events| ensures !Silences(events[k]) {
          if k < last {
            assert front[k] == events[k];
          }
        }
      }
      if ActiveSince(events, answers, i) {
        forall k | i < k < last ensures !Silences(front[k]) {
          assert front[k] == events[k];
        }
      }
    }
  }

  lemma ActiveLater(events: seq<OboeEvent>, answers: nat -> Answers, j: nat)
    requires events != [] && ActiveFrom(events[..|events| - 1], answers, j)
    ensures var front, last := events[..|events| - 1], events[|events| - 1];
            && events[j] == front[j]
            && (!Silences(last) ==> ActiveFrom(events, answers, j))
            && (SecondAhead(events, j) <==> SecondAhead(front, j) && !SecondPassed(last))
  {
    var front, last := events[..|events| - 1], events[|events| - 1];
    ActiveEarlier(events, answers);
    assert events[..j] == front[..j];
    forall k | j < k < |front| ensures front[k] == events[k] {
    }
    if SecondAhead(events, j) {
      forall k | j < k < |front| ensures !SecondPassed(front[k]) {
        assert events[k] == front[k];
      }
    }
  }

  /**
   The sender is asked for its audio once for each stream at most: for a UDP stream
   when it is started, for any other one when the timer first finds that its second
   has passed.
   */
  lemma AskedExactly(events: seq<OboeEvent>, answers: nat -> Answers)
    requires events != [] && RunOf(events, answers).OboeRun?
    ensures var last := |events| - 1;
            var front, e := events[..last], events[last];
            var asks := RunOf(events, answers).sent;
            && RunOf(front, answers).OboeRun?
            && RunOf(front, answers).sent <= asks
            && var added := asks[|RunOf(front, answers).sent|..];
               if && Starts(e, answers(last)) && e.event.handle.UdpHandle?
                  && (forall i: nat :: !ActiveSince(front, answers, i))
               then
                 added == [Dm(SendStartAudioStream(e.event.senderId))]
               else if SecondPassed(e) &&
                       exists j: nat ::
                         ActiveFrom(front, answers, j) && !front[j].event.handle.UdpHandle? && SecondAhead(front, j)
               then exists j: nat ::
                 && ActiveFrom(front, answers, j)
                 && added == [Dm(SendStartAudioStream(front[j].event.senderId))]
               else added == []
  {
    var last := |events| - 1;
    var front := events[..last];
    var before := RunOf(front, answers);
    var j := ActiveExactly(front, answers);
    if before.mode.None? {
      forall i: nat ensures !ActiveFrom(front, answers, i) {
        assert !ActiveSince(front, answers, i);
      }
    } else {
      forall i: nat | ActiveFrom(front, answers, i) ensures i == j {
        OnlyFirst(front, answers, i, j);
      }
      assert ActiveSince(front, answers, j);
    }
  }

  /** Only one stream is the first one that is still active. */
  lemma OnlyFirst(events: seq<OboeEvent>, answers: nat -> Answers, i: nat, j: nat)
    requires ActiveFrom(events, answers, i) && ActiveFrom(events, answers, j)
    ensures i == j
  {
    if i < j {
      ActivePrefix(events, answers, i, j);
    } else if j < i {
      ActivePrefix(events, answers, j, i);
    }
  }

  lemma ActivePrefix(events: seq<OboeEvent>, answers: nat -> Answers, i: nat, n: nat)
    requires ActiveSince(events, answers, i) && i < n <= |events|
    ensures ActiveSince(events[..n], answers, i)
  {
    forall k | i < k < n ensures !Silences(events[..n][k]) {
      assert events[..n][k] == events[k];
    }
  }

  /** How many streams were allowed to start. */
  function StartCount(events: seq<OboeEvent>, answers: nat -> Answers): nat {
    if events == [] then 0
    else
      var last := |events| - 1;
      StartCount(events[..last], answers) + if Starts(events[last], answers(last)) then 1 else 0
  }

  lemma {:induction false} AskedOncePerStart(events: seq<OboeEvent>, answers: nat -> Answers)
    requires RunOf(events, answers).OboeRun?
    ensures var run := RunOf(events, answers);
            |run.sent| + (if run.mode.Some? && run.mode.value.Direct? && run.mode.value.startTimer then 1 else 0) <=
            StartCount(events, answers)
  {
    if events != [] {
      AskedOncePerStart(events[..|events| - 1], answers);
    }
  }

  /** Process-wide flags. */
  class Flags {
    var dataReaderThreadIsRunning: bool
    var oboeCppIsRunning: bool
    var callbackErrorDetected: bool

    constructor ()
      ensures !dataReaderThreadIsRunning && !oboeCppIsRunning && !callbackErrorDetected
    {
      dataReaderThreadIsRunning, oboeCppIsRunning, callbackErrorDetected := false, false, false;
    }
  }

  class OboeLogic {
    var oboeMode: Option<OboeMode>
    const flags: Flags
    var toRouter: seq<RouterMessage>
    /** How often a second stream was ignored. */
    var ignored: nat
    /** How often the output was told to start. */
    var started: nat

    /** Each flag is set exactly while the mode that set it is active. */
    ghost predicate Valid()
      reads this, flags
    {
      && (flags.oboeCppIsRunning <==> oboeMode.Some?)
      && (flags.dataReaderThreadIsRunning <==> oboeMode == Some(Callback))
    }

    constructor (flags: Flags)
      requires !flags.oboeCppIsRunning && !flags.dataReaderThreadIsRunning
      ensures Valid() && this.flags == flags && oboeMode == None && toRouter == [] && ignored == 0
    {
      this.flags := flags;
      oboeMode, toRouter, ignored, started := None, [], 0, 0;
    }

    method NewDataReaderThread() returns (ok: bool)
      modifies flags`dataReaderThreadIsRunning
      ensures ok == !old(flags.dataReaderThreadIsRunning) && flags.dataReaderThreadIsRunning
    {
      var wasRunning := flags.dataReaderThreadIsRunning;
      flags.dataReaderThreadIsRunning := true;
      ok := !wasRunning;
    }

    method NewOboeCpp() returns (ok: bool)
      modifies flags`oboeCppIsRunning, flags`callbackErrorDetected
      ensures ok == !old(flags.oboeCppIsRunning) && flags.oboeCppIsRunning
    {
      var wasRunning := flags.oboeCppIsRunning;
      flags.oboeCppIsRunning := true;
      ok := !wasRunning;
      if ok {
        flags.callbackErrorDetected := false;
      }
    }

    method QuitDataReaderAndOboe()
      requires Valid()
      modifies `oboeMode, flags
      ensures Valid() && oboeMode == None
    {
      var mode := oboeMode;
      oboeMode := None;
      if mode.Some? {
        if mode.value.Callback? {
          flags.dataReaderThreadIsRunning := false;
        }
        flags.oboeCppIsRunning := false;
      }
    }

    /** `stop` asks the caller to close what is playing; a panic is reported with its reason. */
    method HandleAudioEvent(event: AudioEvent, a: Answers) returns (stop: bool, panic: Option<PanicReason>)
      requires Valid()
      modifies `oboeMode, `toRouter, `ignored, `started, flags
      ensures stop == event.StopPlayingAudio?
      ensures match Command(old(oboeMode), event, a)
              case Next(mode, messages) =>
                && panic == None
                && Valid()
                && oboeMode == (if stop then old(oboeMode) else mode)
                && toRouter == old(toRouter) + messages
                && ignored == old(ignored)
              case Ignored =>
                && panic == None
                && Valid()
                && oboeMode == old(oboeMode)
                && toRouter == old(toRouter)
                && ignored == old(ignored) + 1
              case Panicked(reason) => panic == Some(reason) && ignored == old(ignored)
      ensures started == old(started) + if old(oboeMode).None? && oboeMode.Some? && oboeMode.value.Direct? then 1 else 0
    {
      stop, panic := false, None;
      assert toRouter + [] == toRouter;
      match event {
        case StopPlayingAudio => stop := true;
        case StartRecording(_, _) =>
        case StopRecording =>
        case StartAudioStream =>
        case StartPlaying(handle, sampleRate, framesPerBurst, decodeOpus, senderId) =>
          if decodeOpus {
            return false, Some(OpusStream);
          }
          if framesPerBurst.None? {
            return false, Some(NoAudioInfo);
          }
          if oboeMode.Some? {
            // Can not play multiple audio streams simultaneously.
            ignored := ignored + 1;
            return;
          }
          if handle.Reliable() {
            if !a.timeoutSet || !a.nonblockingSet {
              return;
            }
            var ok := NewOboeCpp();
            if !ok {
              return false, Some(SecondOboeCppThread);
            }
            started := started + 1;
            oboeMode := Some(Direct(true, senderId));
            return;
          }
          if !a.timeoutSet {
            return;
          }
          var readerOk := NewDataReaderThread();
          if !readerOk {
            return false, Some(SecondDataReaderThread);
          }
          var oboeOk := NewOboeCpp();
          if !oboeOk {
            return false, Some(SecondOboeCppThread);
          }
          oboeMode := Some(Callback);
          toRouter := toRouter + [Dm(SendStartAudioStream(senderId))];
      }
    }

    /** One event; a mode is only ever started by a command. */
    method HandleEvent(event: OboeEvent, a: Answers) returns (finished: bool, panic: Option<PanicReason>)
      requires Valid()
      modifies this, flags
      ensures panic.None? ==> Valid()
      ensures panic.Some? <==> event.AudioCommand? && Command(old(oboeMode), event.event, a).Panicked?
      ensures panic.Some? ==> panic.value == OpusStream || panic.value == NoAudioInfo
      ensures ignored == old(ignored) +
                if event.AudioCommand? && Command(old(oboeMode), event.event, a).Ignored? then 1 else 0
      ensures panic.None? && event.AudioCommand? ==>
                var r := Command(old(oboeMode), event.event, a);
                if r.Ignored? then oboeMode == old(oboeMode) && toRouter == old(toRouter)
                else oboeMode == r.mode && toRouter == old(toRouter) + r.toRouter
      ensures !event.AudioCommand? ==>
                var r := Notice(old(oboeMode), event); oboeMode == r.mode && toRouter == old(toRouter) + r.toRouter
      ensures finished <==> event.RequestQuit?
      ensures started == old(started) +
                if old(oboeMode).None? && oboeMode.Some? && oboeMode.value.Direct? then 1
                else if event.BufferingDone? && old(oboeMode).Some? then 1
                else 0
    {
      finished, panic := false, None;
      assert toRouter + [] == toRouter;
      match event {
        case RequestQuit => finished := true;
        case AudioCommand(command) =>
          var stop;
          stop, panic := HandleAudioEvent(command, a);
          if stop {
            QuitDataReaderAndOboe();
          }
        case DataReaderReadingError => QuitDataReaderAndOboe();
        case DataReaderSendingError => QuitDataReaderAndOboe();
        case BufferingDone =>
          if oboeMode.Some? {
            started := started + 1;
          }
        case UnderrunCheckTimer(secondPassed, callbackError) =>
          if oboeMode.Some? {
            if oboeMode.value.Direct? && oboeMode.value.startTimer && secondPassed {
              var senderId := oboeMode.value.senderId;
              oboeMode := Some(Direct(false, senderId));
              toRouter := toRouter + [Dm(SendStartAudioStream(senderId))];
            }
            if callbackError {
              QuitDataReaderAndOboe();
            }
          }
      }
    }

    /**
     For any events, stale ones of an earlier stream included, only a stream in Opus
     or without audio info panics, and never a second thread; when the commands are
     exclusive, no stream is ever ignored. The first `handled` events are taken, up to
     the request to quit or a panic.
     */
    method Run(events: seq<OboeEvent>, answers: nat -> Answers) returns (panic: Option<PanicReason>, handled: nat)
      requires Valid() && oboeMode == None && ignored == 0
      modifies this, flags
      ensures panic.None? ==> Valid() && oboeMode == None
      ensures panic.Some? ==>
                && (panic.value == OpusStream || panic.value == NoAudioInfo)
                && exists i :: 0 <= i < |events| && Unplayable(events[i])
      ensures Exclusive(Commands(events)) ==> ignored == 0
      ensures handled <= |events| && forall i :: 0 <= i < handled ==> !events[i].RequestQuit?
      ensures panic.None? && handled < |events| ==> events[handled].RequestQuit?
      ensures panic.None? ==>
                && RunOf(events[..handled], answers).OboeRun?
                && toRouter == old(toRouter) + RunOf(events[..handled], answers).sent
      ensures panic.Some? ==> handled < |events| && RunOf(events[..handled + 1], answers).Halted?
    {
      hide Player, Commands, Exclusive, RunOf, Playing;
      panic := None;
      ghost var before := toRouter;
      assert before + [] == before;
      RunStarts(events, answers);
      for i := 0 to |events|
        invariant Valid() && panic.None?
        invariant forall k :: 0 <= k < i ==> !events[k].RequestQuit?
        invariant RunOf(events[..i], answers).OboeRun? && RunOf(events[..i], answers).mode == oboeMode
        invariant toRouter == before + RunOf(events[..i], answers).sent
        invariant oboeMode.Some? ==> Playing(Commands(events[..i]))
        invariant Exclusive(Commands(events)) ==> ignored == 0
      {
        CommandsTaken(events, i);
        RunTaken(events, answers, i);
        assert toRouter + [] == toRouter;
        var finished;
        finished, panic := HandleEvent(events[i], answers(i));
        if panic.Some? {
          assert Unplayable(events[i]);
          return panic, i;
        }
        if finished {
          QuitDataReaderAndOboe();
          return None, i;
        }
      }
      QuitDataReaderAndOboe();
      handled := |events|;
    }
  }

  lemma RunStarts(events: seq<OboeEvent>, answers: nat -> Answers)
    ensures RunOf(events[..0], answers) == OboeRun(None, [])
    ensures events[..|events|] == events
  {
  }

  lemma RunTaken(events: seq<OboeEvent>, answers: nat -> Answers, i: nat)
    requires i < |events|
    ensures RunOf(events[..i + 1], answers) == StepRun(RunOf(events[..i], answers), events[i], answers(i))
  {
    assert events[..i + 1][..i] == events[..i];
  }

  predicate Unplayable(e: OboeEvent) {
    e.AudioCommand? && e.event.StartPlaying? && (e.event.decodeOpus || e.event.framesPerBurst.None?)
  }

  function Commands(events: seq<OboeEvent>): seq<AudioEvent> {
    if events == [] then []
    else
      var last := events[|events| - 1];
      Commands(events[..|events| - 1]) + if last.AudioCommand? then [last.event] else []
  }

  lemma CommandsTaken(events: seq<OboeEvent>, i: nat)
    requires i < |events|
    ensures Commands(events[..i + 1]) ==
              Commands(events[..i]) + if events[i].AudioCommand? then [events[i].event] else []
    ensures !events[i].AudioCommand? ==> Commands(events[..i + 1]) == Commands(events[..i])
    ensures Commands(events[..i]) <= Commands(events)
    ensures events[i].AudioCommand? ==>
              Playing(Commands(events[..i + 1])) ==
              (if events[i].event.StartPlaying? then true
               else if events[i].event.StopPlayingAudio? then false
               else Playing(Commands(events[..i])))
    ensures Exclusive(Commands(events)) && events[i].AudioCommand? && events[i].event.StartPlaying? ==>
              !Playing(Commands(events[..i]))
  {
    var before := Commands(events[..i]);
    assert events[..i + 1][..i] == events[..i];
    assert before + [] == before;
    CommandsPrefix(events, i);
    CommandsPrefix(events, i + 1);
    if events[i].AudioCommand? {
      PlayerAppend(before, events[i].event);
      if Exclusive(Commands(events)) {
        ExclusivePrefix(before + [events[i].event], Commands(events));
        ExclusiveAppend(before, events[i].event);
      }
    }
  }

  lemma {:induction false} CommandsPrefix(events: seq<OboeEvent>, i: nat)
    requires i <= |events|
    ensures Commands(events[..i]) <= Commands(events)
    decreases |events| - i
  {
    if i == |events| {
      assert events[..i] == events;
    } else {
      CommandsPrefix(events, i + 1);
      assert events[..i + 1][..i] == events[..i];
    }
  }
}
