/** From raw device records to key events that mean something within one epoch: reports assembled
    across reads, keys normalized, and cuts after which held keys stay silent until released. */
module Evdev {
  import opened Basics

  const EV_SYN := 0
  const EV_KEY := 1
  const SYN_REPORT := 0
  const SYN_DROPPED := 3
  const MAX_REPORT_EVENTS := 256
  const KEY_COUNT := 48
  const LAST_CODE := 0x2FF

  const NANOS_PER_SECOND := 1_000_000_000
  const NANOS_PER_MICROSECOND := 1_000
  const MICROSECONDS_PER_SECOND := 1_000_000

  datatype RawEvent = RawEvent(seconds: i64, microseconds: i64, eventType: u16, code: u16, value: i32)

  datatype InputError =
    | ReacquisitionRequired | ReacquisitionNotRequired | EpochOverflow | ReportTooLarge
    | InvalidTimestamp | TimestampOverflow | InvalidKeyValue

  datatype Action = Released | Pressed | Repeated

  datatype KeyEvent = KeyEvent(timestamp: u64, key: nat, action: Action, epoch: nat)

  // ----- key codes -----

  /** Which of the supported keys a device code is, by the order they are declared in. */
  function FromEvdev(code: u16): (key: Option<nat>)
    ensures key.Some? ==> key.value < KEY_COUNT
  {
    match code
    case 1 => Some(0)
    case 28 => Some(1)
    case 103 => Some(2)
    case 105 => Some(3)
    case 106 => Some(4)
    case 108 => Some(5)
    case 113 => Some(6)
    case 114 => Some(7)
    case 115 => Some(8)
    case 116 => Some(9)
    case 139 => Some(10)
    case 158 => Some(11)
    case 172 => Some(12)
    case 163 => Some(13)
    case 164 => Some(14)
    case 165 => Some(15)
    case 166 => Some(16)
    case 167 => Some(17)
    case 168 => Some(18)
    case 174 => Some(19)
    case 208 => Some(20)
    case 223 => Some(21)
    case 352 => Some(22)
    case 353 => Some(23)
    case 358 => Some(24)
    case 365 => Some(25)
    case 370 => Some(26)
    case 377 => Some(27)
    case 392 => Some(28)
    case 393 => Some(29)
    case 398 => Some(30)
    case 399 => Some(31)
    case 400 => Some(32)
    case 401 => Some(33)
    case 402 => Some(34)
    case 403 => Some(35)
    case 512 => Some(36)
    case 513 => Some(37)
    case 514 => Some(38)
    case 515 => Some(39)
    case 516 => Some(40)
    case 517 => Some(41)
    case 518 => Some(42)
    case 519 => Some(43)
    case 520 => Some(44)
    case 521 => Some(45)
    case 522 => Some(46)
    case 523 => Some(47)
    case _ => None
  }

  function CodeOf(key: nat): (code: u16)
    requires key < KEY_COUNT
    ensures code <= LAST_CODE
  {
    match key
    case 0 => 1
    case 1 => 28
    case 2 => 103
    case 3 => 105
    case 4 => 106
    case 5 => 108
    case 6 => 113
    case 7 => 114
    case 8 => 115
    case 9 => 116
    case 10 => 139
    case 11 => 158
    case 12 => 172
    case 13 => 163
    case 14 => 164
    case 15 => 165
    case 16 => 166
    case 17 => 167
    case 18 => 168
    case 19 => 174
    case 20 => 208
    case 21 => 223
    case 22 => 352
    case 23 => 353
    case 24 => 358
    case 25 => 365
    case 26 => 370
    case 27 => 377
    case 28 => 392
    case 29 => 393
    case 30 => 398
    case 31 => 399
    case 32 => 400
    case 33 => 401
    case 34 => 402
    case 35 => 403
    case 36 => 512
    case 37 => 513
    case 38 => 514
    case 39 => 515
    case 40 => 516
    case 41 => 517
    case 42 => 518
    case 43 => 519
    case 44 => 520
    case 45 => 521
    case 46 => 522
    case _ => 523
  }

  /** Codes and keys determine each other. */
  lemma CodesAgree(code: u16, key: nat)
    requires key < KEY_COUNT
    ensures FromEvdev(code) == Some(key) <==> code == CodeOf(key)
  {
  }

  // ----- what a key does -----

  /** What a device may report of a key: a press when it is up, a repeat or a release when it is down. */
  predicate Allowed(down: bool, a: Action) {
    if a.Pressed? then !down else down
  }

  predicate EndsDown(actions: seq<Action>) {
    actions != [] && !actions[|actions| - 1].Released?
  }

  /** Cycles of a press, repeats and a release, the last perhaps unfinished. */
  predicate Cycles(actions: seq<Action>) {
    actions == [] || (Cycles(actions[..|actions| - 1]) && Allowed(EndsDown(actions[..|actions| - 1]), actions[|actions| - 1]))
  }

  /** The first thing in any cycle is a press. */
  lemma {:induction false} CyclesBeginWithPress(actions: seq<Action>)
    requires Cycles(actions) && actions != []
    ensures actions[0].Pressed?
  {
    if |actions| > 1 {
      CyclesBeginWithPress(actions[..|actions| - 1]);
    }
  }

  /** What one key did in one epoch. */
  function Actions(events: seq<KeyEvent>, epoch: nat, key: nat): seq<Action> {
    if events == [] then []
    else
      var before := Actions(events[..|events| - 1], epoch, key);
      var e := events[|events| - 1];
      if e.epoch == epoch && e.key == key then before + [e.action] else before
  }

  lemma ActionsOne(events: seq<KeyEvent>, e: KeyEvent, epoch: nat, key: nat)
    ensures Actions(events + [e], epoch, key)
            == if e.epoch == epoch && e.key == key then Actions(events, epoch, key) + [e.action] else Actions(events, epoch, key)
  {
    assert (events + [e])[..|events|] == events;
  }

  lemma {:induction false} NoActionsYet(events: seq<KeyEvent>, epoch: nat, key: nat)
    requires forall i | 0 <= i < |events| :: events[i].epoch < epoch
    ensures Actions(events, epoch, key) == []
  {
    if events != [] {
      NoActionsYet(events[..|events| - 1], epoch, key);
    }
  }

  // ----- reading one record -----

  function TimestampNs(seconds: i64, microseconds: i64): Result<u64, InputError> {
    if seconds < 0 || !(0 <= microseconds < MICROSECONDS_PER_SECOND) then Err(InvalidTimestamp)
    else if (seconds as int) * NANOS_PER_SECOND + (microseconds as int) * NANOS_PER_MICROSECOND > U64_MAX then
      Err(TimestampOverflow)
    else Ok((seconds as int) * NANOS_PER_SECOND + (microseconds as int) * NANOS_PER_MICROSECOND)
  }

  /** A usable time is in nanoseconds. */
  lemma TimeInNanoseconds(s: i64, m: i64)
    requires TimestampNs(s, m).Ok?
    ensures TimestampNs(s, m).value == s as int * 1_000_000_000 + m as int * 1_000 && 0 <= m < 1_000_000
  {
  }

  const LAST_SECOND := 18_446_744_073

  /** A time is usable exactly when it is one of the times that fit, and then distinct times keep their
      order: nothing wraps and nothing is rounded. */
  lemma TimesKeepOrder(s: i64, m: i64, laterS: i64, laterM: i64)
    ensures TimestampNs(s, m).Ok?
            <==> s >= 0 && 0 <= m < MICROSECONDS_PER_SECOND && (s < LAST_SECOND || (s == LAST_SECOND && m <= 709_551))
    ensures TimestampNs(s, m).Ok? && TimestampNs(laterS, laterM).Ok? ==>
              (TimestampNs(s, m).value < TimestampNs(laterS, laterM).value <==> s < laterS || (s == laterS && m < laterM))
  {
  }

  /** The supported key a record is about, if it is about one. */
  function KeyOf(e: RawEvent): (key: Option<nat>)
    ensures key.Some? ==> key.value < KEY_COUNT
  {
    if e.eventType != EV_KEY then None else FromEvdev(e.code)
  }

  function ActionOf(e: RawEvent): Option<Action> {
    if e.value == 0 then Some(Released) else if e.value == 1 then Some(Pressed) else if e.value == 2 then Some(Repeated)
    else None
  }

  /** A record that changes nothing here, or a key's with a defined action and a usable time. */
  predicate Readable(e: RawEvent) {
    KeyOf(e).Some? ==> ActionOf(e).Some? && TimestampNs(e.seconds, e.microseconds).Ok?
  }

  // ----- key state -----

  type KeySet = s: seq<bool> | |s| == KEY_COUNT witness seq(KEY_COUNT, _ => false)

  function ApplyOne(down: KeySet, e: RawEvent): KeySet {
    if KeyOf(e).Some? && ActionOf(e).Some? then down[KeyOf(e).value := !ActionOf(e).value.Released?] else down
  }

  /** The keys down after a device reported these records. */
  function ApplyAll(down: KeySet, events: seq<RawEvent>): KeySet {
    if events == [] then down else ApplyOne(ApplyAll(down, events[..|events| - 1]), events[|events| - 1])
  }

  predicate OneConsistent(down: KeySet, e: RawEvent) {
    KeyOf(e).Some? && ActionOf(e).Some? ==> Allowed(down[KeyOf(e).value], ActionOf(e).value)
  }

  /** Every key's records follow each other as a device's do, starting from these keys down. */
  predicate Consistent(down: KeySet, events: seq<RawEvent>) {
    events == [] || (Consistent(down, events[..|events| - 1])
                     && OneConsistent(ApplyAll(down, events[..|events| - 1]), events[|events| - 1]))
  }

  lemma ConsistentOne(down: KeySet, events: seq<RawEvent>, e: RawEvent)
    ensures ApplyAll(down, events + [e]) == ApplyOne(ApplyAll(down, events), e)
    ensures Consistent(down, events + [e]) <==> Consistent(down, events) && OneConsistent(ApplyAll(down, events), e)
  {
    assert (events + [e])[..|events|] == events;
  }

  /** A key its epoch's listeners believe is down: really down, and not kept silent since a cut. */
  ghost predicate InStep(events: seq<KeyEvent>, epoch: nat, down: KeySet, suppressed: KeySet) {
    forall key: nat | key < KEY_COUNT :: KeyInStep(events, epoch, down, suppressed, key)
  }

  predicate KeyInStep(events: seq<KeyEvent>, epoch: nat, down: KeySet, suppressed: KeySet, key: nat)
    requires key < KEY_COUNT
  {
    && Cycles(Actions(events, epoch, key))
    && EndsDown(Actions(events, epoch, key)) == (down[key] && !suppressed[key])
  }

  ghost predicate SuppressedDown(down: KeySet, suppressed: KeySet) {
    forall key: nat | key < KEY_COUNT && suppressed[key] :: down[key]
  }

  /** One record, normalized: silent while suppressed, and otherwise passed on. */
  lemma StepKeepsCycles(events: seq<KeyEvent>, epoch: nat, down: KeySet, suppressed: KeySet, key: nat, a: Action, t: u64)
    requires key < KEY_COUNT && SuppressedDown(down, suppressed)
    requires InStep(events, epoch, down, suppressed) && Allowed(down[key], a)
    ensures suppressed[key] ==>
              InStep(events, epoch, down[key := !a.Released?], suppressed[key := !a.Released?])
    ensures !suppressed[key] ==>
              InStep(events + [KeyEvent(t, key, a, epoch)], epoch, down[key := !a.Released?], suppressed)
  {
    if suppressed[key] {
      StaysSilent(events, epoch, down, suppressed, key, !a.Released?, down[key := !a.Released?], suppressed[key := !a.Released?]);
    } else {
      PassedInStep(events, epoch, down, suppressed, KeyEvent(t, key, a, epoch), down[key := !a.Released?]);
    }
  }

  lemma PassedInStep(events: seq<KeyEvent>, epoch: nat, down: KeySet, suppressed: KeySet, e: KeyEvent, nextDown: KeySet)
    requires e.key < KEY_COUNT && e.epoch == epoch && InStep(events, epoch, down, suppressed)
    requires !suppressed[e.key] && Allowed(down[e.key], e.action) && nextDown == down[e.key := !e.action.Released?]
    ensures InStep(events + [e], epoch, nextDown, suppressed)
  {
    var more := events + [e];
    forall k: nat | k < KEY_COUNT ensures KeyInStep(more, epoch, nextDown, suppressed, k) {
      KeyPassedOn(events, epoch, down, suppressed, e, nextDown, k);
    }
  }

  lemma StaysSilent(events: seq<KeyEvent>, epoch: nat, down: KeySet, suppressed: KeySet, key: nat, held: bool,
                    nextDown: KeySet, nextSuppressed: KeySet)
    requires key < KEY_COUNT && InStep(events, epoch, down, suppressed) && suppressed[key] && down[key]
    requires nextDown == down[key := held] && nextSuppressed == suppressed[key := held]
    ensures InStep(events, epoch, nextDown, nextSuppressed)
  {
    forall k: nat | k < KEY_COUNT ensures KeyInStep(events, epoch, nextDown, nextSuppressed, k) {
      assert KeyInStep(events, epoch, down, suppressed, k);
    }
  }

  /** One key, after one event of that key or another was passed on. */
  lemma KeyPassedOn(events: seq<KeyEvent>, epoch: nat, down: KeySet, suppressed: KeySet, e: KeyEvent, nextDown: KeySet, k: nat)
    requires k < KEY_COUNT && e.key < KEY_COUNT && e.epoch == epoch && KeyInStep(events, epoch, down, suppressed, k)
    requires !suppressed[e.key] && Allowed(down[e.key], e.action) && nextDown == down[e.key := !e.action.Released?]
    ensures KeyInStep(events + [e], epoch, nextDown, suppressed, k)
  {
    ActionsOne(events, e, epoch, k);
    if k == e.key {
      CycleGrows(Actions(events, epoch, k), e.action);
    }
  }

  lemma CycleGrows(was: seq<Action>, a: Action)
    requires Cycles(was) && Allowed(EndsDown(was), a)
    ensures Cycles(was + [a]) && EndsDown(was + [a]) == !a.Released?
  {
    assert (was + [a])[..|was|] == was;
  }

  ghost predicate OrderlyFacts(events: seq<KeyEvent>, epoch: nat, broken: set<nat>, down: KeySet, suppressed: KeySet) {
    && (forall i | 0 <= i < |events| :: events[i].epoch <= epoch)
    && (forall n: nat, key: nat | n !in broken && key < KEY_COUNT :: Cycles(Actions(events, n, key)))
    && (epoch !in broken ==> InStep(events, epoch, down, suppressed))
    && (forall n | n in broken :: n <= epoch)
  }

  /** Outside the epochs broken by a loss, everything passed on is cycles, and in the latest epoch
      listeners believe of every key what is true of it. Folded. */
  ghost predicate Orderly(events: seq<KeyEvent>, epoch: nat, broken: set<nat>, down: KeySet, suppressed: KeySet) {
    forall key: Key | Opened(key) :: OrderlyFacts(events, epoch, broken, down, suppressed)
  }

  /** At the start nothing is down and nothing was passed on. */
  lemma OrderlyStart(down: KeySet)
    requires forall key: nat | key < KEY_COUNT :: !down[key]
    ensures Orderly([], 1, {}, down, down)
  {
    Unlock();
  }

  /** A new epoch begins with nothing passed on, and whatever is down silent. */
  lemma NewEpoch(events: seq<KeyEvent>, epoch: nat, next: nat, broken: set<nat>, down: KeySet, suppressed: KeySet, held: KeySet)
    requires Orderly(events, epoch, broken, down, suppressed) && next == epoch + 1
    ensures Orderly(events, next, broken, held, held)
    ensures forall key: nat | key < KEY_COUNT :: Actions(events, next, key) == []
  {
    Unlock();
    forall key: nat | key < KEY_COUNT ensures Actions(events, next, key) == [] {
      NoActionsYet(events, next, key);
    }
  }

  /** What an epoch that was never out of step tells of a key: whole cycles, beginning with a press. */
  lemma EpochIsCycles(events: seq<KeyEvent>, epoch: nat, broken: set<nat>, down: KeySet, suppressed: KeySet, n: nat, key: nat)
    requires Orderly(events, epoch, broken, down, suppressed) && n !in broken && key < KEY_COUNT
    ensures Cycles(Actions(events, n, key))
    ensures Actions(events, n, key) != [] ==> Actions(events, n, key)[0].Pressed?
  {
    Unlock();
    assert Cycles(Actions(events, n, key));
    if Actions(events, n, key) != [] {
      CyclesBeginWithPress(Actions(events, n, key));
    }
  }

  /** Reports accepted in an epoch keep what was passed on orderly. */
  lemma Delivery(events: seq<KeyEvent>, more: seq<KeyEvent>, epoch: nat, was: set<nat>, broken: set<nat>,
                 down: KeySet, suppressed: KeySet, nextDown: KeySet, nextSuppressed: KeySet)
    requires Orderly(events, epoch, was, down, suppressed) && (broken == was || broken == was + {epoch})
    requires forall i | 0 <= i < |more| :: more[i].epoch == epoch
    requires epoch !in broken && InStep(events, epoch, down, suppressed) ==> InStep(events + more, epoch, nextDown, nextSuppressed)
    ensures Orderly(events + more, epoch, broken, nextDown, nextSuppressed)
  {
    Unlock();
    forall n: nat, key: nat | n !in broken && key < KEY_COUNT ensures Cycles(Actions(events + more, n, key)) {
      if n != epoch {
        OtherEpoch(events, more, epoch, n, key);
      } else {
        assert KeyInStep(events + more, epoch, nextDown, nextSuppressed, key);
      }
    }
  }

  // ----- reports -----

  predicate IsDrop(e: RawEvent) {
    e.eventType == EV_SYN && e.code == SYN_DROPPED
  }

  predicate IsBoundary(e: RawEvent) {
    e.eventType == EV_SYN && e.code == SYN_REPORT
  }

  /** What a device's numbers mean: a record of type 0 ends a report if its code is 0, and says that records
      were lost if it is 3; one of type 1 is about a key, which its value 0 releases, 1 presses and 2 repeats. */
  lemma RecordMeans(e: RawEvent)
    ensures IsBoundary(e) <==> e.eventType == 0 && e.code == 0
    ensures IsDrop(e) <==> e.eventType == 0 && e.code == 3
    ensures KeyOf(e).Some? ==> e.eventType == 1 && e.code == CodeOf(KeyOf(e).value)
    ensures forall key: nat | key < 48 && e.eventType == 1 && e.code == CodeOf(key) :: KeyOf(e) == Some(key)
    ensures ActionOf(e) == Some(Released) <==> e.value == 0
    ensures ActionOf(e) == Some(Pressed) <==> e.value == 1
    ensures ActionOf(e) == Some(Repeated) <==> e.value == 2
  {
    forall key: nat | key < 48 && e.eventType == 1 && e.code == CodeOf(key) ensures KeyOf(e) == Some(key) {
      CodesAgree(e.code, key);
    }
    if KeyOf(e).Some? {
      CodesAgree(e.code, KeyOf(e).value);
    }
  }

  datatype ReportStatus = Pending | Complete(report: seq<RawEvent>) | Discontinuity

  class ReportAccumulator {
    var pending: seq<RawEvent>
    var dropping: bool

    constructor ()
      ensures pending == [] && !dropping
    {
      pending, dropping := [], false;
    }

    ghost predicate Valid()
      reads this
    {
      |pending| <= MAX_REPORT_EVENTS && (dropping ==> pending == [])
    }

    /** `push`: a report is exactly the records since the last boundary; a drop, or a report too
        large, discards everything up to the next boundary and says so there. */
    method Push(e: RawEvent) returns (r: Result<ReportStatus, InputError>)
      requires Valid()
      modifies this
      ensures Valid()
      ensures e.eventType == 0 && e.code == 3 ==> r == Ok(Pending) && pending == [] && dropping
      ensures e.eventType == 0 && e.code == 0 ==>
                && pending == [] && !dropping
                && r == Ok(if old(dropping) then Discontinuity else Complete(old(pending)))
      ensures !(e.eventType == 0 && e.code in {0, 3}) && old(dropping) ==> r == Ok(Pending) && pending == [] && dropping
      ensures !(e.eventType == 0 && e.code in {0, 3}) && !old(dropping) && |old(pending)| < 256 ==>
                r == Ok(Pending) && pending == old(pending) + [e] && !dropping
      ensures !(e.eventType == 0 && e.code in {0, 3}) && !old(dropping) && |old(pending)| == 256 ==>
                r == Err(ReportTooLarge) && pending == [] && dropping
    {
      if e.eventType == EV_SYN && e.code == SYN_DROPPED {
        pending, dropping := [], true;
        return Ok(Pending);
      }
      if e.eventType == EV_SYN && e.code == SYN_REPORT {
        if dropping {
          dropping := false;
          return Ok(Discontinuity);
        }
        r := Ok(Complete(pending));
        pending := [];
        return;
      }
      if dropping {
        return Ok(Pending);
      }
      if |pending| >= MAX_REPORT_EVENTS {
        pending, dropping := [], true;
        return Err(ReportTooLarge);
      }
      pending := pending + [e];
      return Ok(Pending);
    }

    method Reset()
      modifies this
      ensures pending == [] && !dropping
    {
      pending, dropping := [], false;
    }
  }

  // ----- normalization -----

  /** The silent keys after one record more: a release ends the silence of its key. */
  function SilentOne(silent: KeySet, e: RawEvent): KeySet {
    if KeyOf(e).Some? && ActionOf(e).Some? && silent[KeyOf(e).value] then silent[KeyOf(e).value := !ActionOf(e).value.Released?]
    else silent
  }

  function SilentAll(silent: KeySet, report: seq<RawEvent>): KeySet {
    if report == [] then silent else SilentOne(SilentAll(silent, report[..|report| - 1]), report[|report| - 1])
  }

  predicate AllReadable(report: seq<RawEvent>) {
    forall i | 0 <= i < |report| :: Readable(report[i])
  }

  /** What a readable record is passed on as, if it is a key's that is not silent. */
  function PassedOne(silent: KeySet, e: RawEvent, epoch: nat): seq<KeyEvent>
    requires Readable(e)
  {
    if KeyOf(e).Some? && !silent[KeyOf(e).value]
    then [KeyEvent(TimestampNs(e.seconds, e.microseconds).value, KeyOf(e).value, ActionOf(e).value, epoch)] else []
  }

  /** What a readable report is passed on as. */
  function PassedAll(silent: KeySet, report: seq<RawEvent>, epoch: nat): seq<KeyEvent>
    requires AllReadable(report)
  {
    if report == [] then []
    else
      PassedAll(silent, report[..|report| - 1], epoch)
      + PassedOne(SilentAll(silent, report[..|report| - 1]), report[|report| - 1], epoch)
  }

  lemma PassedNext(silent: KeySet, report: seq<RawEvent>, e: RawEvent, epoch: nat)
    requires AllReadable(report) && Readable(e)
    ensures AllReadable(report + [e])
    ensures SilentAll(silent, report + [e]) == SilentOne(SilentAll(silent, report), e)
    ensures PassedAll(silent, report + [e], epoch)
            == PassedAll(silent, report, epoch) + PassedOne(SilentAll(silent, report), e, epoch)
  {
    assert (report + [e])[..|report|] == report;
  }

  /** What a report's records say one key did. */
  function KeyActions(report: seq<RawEvent>, key: nat): seq<Action> {
    if report == [] then []
    else
      var before := KeyActions(report[..|report| - 1], key);
      var e := report[|report| - 1];
      if KeyOf(e) == Some(key) && ActionOf(e).Some? then before + [ActionOf(e).value] else before
  }

  predicate NoRelease(actions: seq<Action>) {
    forall i | 0 <= i < |actions| :: !actions[i].Released?
  }

  /** What a key that was silent is heard doing: what follows its release. */
  ghost predicate HeardAfterRelease(did: seq<Action>, heard: seq<Action>) {
    if NoRelease(did) then heard == []
    else exists n :: 0 <= n < |did| && did[n].Released? && NoRelease(did[..n]) && heard == did[n + 1..]
  }

  lemma HeardMore(did: seq<Action>, heard: seq<Action>, a: Action)
    requires HeardAfterRelease(did, heard)
    ensures NoRelease(did) ==> HeardAfterRelease(did + [a], [])
    ensures !NoRelease(did) ==> HeardAfterRelease(did + [a], heard + [a])
  {
    var more := did + [a];
    if NoRelease(did) {
      if a.Released? {
        assert more[|did|] == a && more[..|did|] == did && more[|did| + 1..] == [];
      }
    } else {
      var n :| 0 <= n < |did| && did[n].Released? && NoRelease(did[..n]) && heard == did[n + 1..];
      assert more[n] == did[n] && more[..n] == did[..n] && more[n + 1..] == did[n + 1..] + [a];
    }
  }

  /** What is passed on of one key: everything it did, if it was not silent; otherwise exactly what
      follows its release, and it stays silent until there is one. */
  lemma {:induction false} PassedByKey(silent: KeySet, report: seq<RawEvent>, epoch: nat, key: nat)
    requires AllReadable(report) && key < KEY_COUNT
    ensures !silent[key] ==> Actions(PassedAll(silent, report, epoch), epoch, key) == KeyActions(report, key)
    ensures silent[key] ==> HeardAfterRelease(KeyActions(report, key), Actions(PassedAll(silent, report, epoch), epoch, key))
    ensures SilentAll(silent, report)[key] == (silent[key] && NoRelease(KeyActions(report, key)))
  {
    if report != [] {
      var init, e := report[..|report| - 1], report[|report| - 1];
      PassedByKey(silent, init, epoch, key);
      assert Readable(e);
      var before, did := PassedAll(silent, init, epoch), KeyActions(init, key);
      if KeyOf(e) == Some(key) {
        var a := ActionOf(e).value;
        if silent[key] {
          HeardMore(did, Actions(before, epoch, key), a);
        }
        ReleaseOnTheEnd(did, a);
      }
      if PassedOne(SilentAll(silent, init), e, epoch) != [] {
        ActionsOne(before, PassedOne(SilentAll(silent, init), e, epoch)[0], epoch, key);
      } else {
        assert before + [] == before;
      }
    }
  }

  lemma ReleaseOnTheEnd(did: seq<Action>, a: Action)
    ensures NoRelease(did + [a]) <==> NoRelease(did) && !a.Released?
  {
    assert NoRelease(did + [a]) ==> forall i | 0 <= i < |did| :: (did + [a])[i] == did[i];
    assert (did + [a])[|did|] == a;
  }

  /** What is wrong with a record that cannot be read. */
  function RecordError(e: RawEvent): InputError
    requires !Readable(e)
  {
    if ActionOf(e).None? then InvalidKeyValue else TimestampNs(e.seconds, e.microseconds).error
  }

  /** A report refused for the first of its records that cannot be read. */
  ghost predicate RefusedFor(report: seq<RawEvent>, error: InputError) {
    exists i :: 0 <= i < |report| && !Readable(report[i]) && AllReadable(report[..i]) && error == RecordError(report[i])
  }

  class KeyNormalizer {
    var down: KeySet
    var suppressed: KeySet

    constructor ()
      ensures down == suppressed == Up()
    {
      down := Up();
      suppressed := Up();
    }

    /** `normalize`: a report that cannot be read changes nothing. One that can moves the key state
        by all of its records, and of those it passes on what `PassedAll` says. */
    method Normalize(report: seq<RawEvent>, epoch: nat) returns (r: Result<seq<KeyEvent>, InputError>)
      modifies this
      ensures r.Ok? <==> AllReadable(report)
      ensures r.Err? ==> down == old(down) && suppressed == old(suppressed) && RefusedFor(report, r.error)
      ensures r.Ok? ==> && down == ApplyAll(old(down), report) && suppressed == SilentAll(old(suppressed), report)
                        && r.value == PassedAll(old(suppressed), report, epoch)
    {
      var normalized: seq<KeyEvent> := [];
      var nextDown, nextSuppressed := down, suppressed;
      var i := 0;
      while i < |report|
        invariant 0 <= i <= |report| && down == old(down) && suppressed == old(suppressed)
        invariant AllReadable(report[..i])
        invariant nextDown == ApplyAll(down, report[..i]) && nextSuppressed == SilentAll(suppressed, report[..i])
        invariant normalized == PassedAll(suppressed, report[..i], epoch)
      {
        var e := report[i];
        assert report[..i + 1] == report[..i] + [e];
        if KeyOf(e).Some? {
          var key := KeyOf(e).value;
          if ActionOf(e).None? {
            assert !Readable(report[i]);
            return Err(InvalidKeyValue);
          }
          var a := ActionOf(e).value;
          var t := TimestampNs(e.seconds, e.microseconds);
          if t.Err? {
            assert !Readable(report[i]);
            return Err(t.error);
          }
          PassedNext(suppressed, report[..i], e, epoch);
          ConsistentOne(down, report[..i], e);
          nextDown := nextDown[key := !a.Released?];
          if nextSuppressed[key] {
            nextSuppressed := nextSuppressed[key := !a.Released?];
          } else {
            normalized := normalized + [KeyEvent(t.value, key, a, epoch)];
          }
        } else {
          PassedNext(suppressed, report[..i], e, epoch);
          ConsistentOne(down, report[..i], e);
        }
        i := i + 1;
      }
      assert report[..i] == report;
      down, suppressed := nextDown, nextSuppressed;
      return Ok(normalized);
    }

    /** `suppress_held`: what is held stays silent until it is released. */
    method SuppressHeld()
      modifies `suppressed
      ensures suppressed == down
    {
      suppressed := down;
    }

    /** `reacquire`: every supported key is what the device's bitmap says, and silent if it is down. */
    method Reacquire(bitmap: seq<u8>)
      modifies this
      ensures down == suppressed == KeysIn(bitmap)
    {
      var code: u16 := 0;
      while code <= LAST_CODE
        invariant code <= LAST_CODE + 1
        invariant forall key: nat | key < KEY_COUNT && CodeOf(key) < code :: down[key] == suppressed[key] == Bit(bitmap, CodeOf(key))
      {
        var key := FromEvdev(code);
        forall k: nat | k < KEY_COUNT ensures FromEvdev(code) == Some(k) <==> code == CodeOf(k) {
          CodesAgree(code, k);
        }
        if key.Some? {
          down := down[key.value := Bit(bitmap, code)];
          suppressed := suppressed[key.value := Bit(bitmap, code)];
        }
        code := code + 1;
      }
    }
  }

  function PowerOfTwo(n: nat): nat
    requires n < 8
  {
    if n == 0 then 1 else if n == 1 then 2 else if n == 2 then 4 else if n == 3 then 8
    else if n == 4 then 16 else if n == 5 then 32 else if n == 6 then 64 else 128
  }

  /** Whether a code's bit is set; codes past the end of the bitmap are not. */
  predicate Bit(bitmap: seq<u8>, code: u16) {
    code / 8 < |bitmap| && ((bitmap[code / 8] as int) / PowerOfTwo(code % 8)) % 2 == 1
  }

  lemma Quotient(n: nat, d: nat, k: nat, r: nat)
    requires n == d * k + r && r < d
    ensures n / d == k
  {
    var q, s := n / d, n % d;
    assert n == d * q + s;
    if q < k {
      MulMonotone(q + 1, k, d);
      assert false;
    } else if q > k {
      MulMonotone(k + 1, q, d);
      assert false;
    }
  }

  /** A key's bit is counted from the least significant of its byte: `p` is its weight. */
  lemma BitIs(bitmap: seq<u8>, code: u16, p: nat, high: nat, bit: nat, low: nat)
    requires code / 8 < |bitmap| && bit < 2 && p == [1, 2, 4, 8, 16, 32, 64, 128][code % 8]
    requires low < p && bitmap[code / 8] as int == p * (2 * high + bit) + low
    ensures Bit(bitmap, code) <==> bit == 1
  {
    assert p == PowerOfTwo(code % 8);
    Quotient(bitmap[code / 8], p, 2 * high + bit, low);
  }

  function KeysIn(bitmap: seq<u8>): KeySet {
    seq(KEY_COUNT, key requires 0 <= key < KEY_COUNT => Bit(bitmap, CodeOf(key)))
  }

  // ----- the pipeline as one value -----

  /** The pipeline with what it is about: what it has passed on, the keys the device has told of being
      down, whether what was read is all of what the device told since the key state was last known,
      and the epochs in which a report was accepted while it was not. */
  datatype Line = Line(pending: seq<RawEvent>, dropping: bool, needs: bool, down: KeySet, suppressed: KeySet, epoch: nat,
                       emitted: seq<KeyEvent>, device: KeySet, synced: bool, broken: set<nat>)

  function Up(): (up: KeySet)
    ensures forall key | 0 <= key < KEY_COUNT :: !up[key]
  {
    seq(KEY_COUNT, _ => false)
  }

  function Start(): Line {
    Line([], false, false, Up(), Up(), 1, [], Up(), true, {})
  }

  /** A report read to its end and accepted. */
  function Accepted(l: Line, report: seq<RawEvent>): Line
    requires AllReadable(report)
  {
    l.(pending := [], down := ApplyAll(l.down, report), suppressed := SilentAll(l.suppressed, report),
       emitted := l.emitted + PassedAll(l.suppressed, report, l.epoch),
       broken := if l.synced then l.broken else l.broken + {l.epoch})
  }

  /** A record read. */
  function Fed(l: Line, e: RawEvent): Line {
    if l.needs then Heard(l, e)
    else if IsDrop(e) then Heard(l, e).(pending := [], dropping := true)
    else if IsBoundary(e) then
      if l.dropping then Heard(l, e).(dropping := false, needs := true)
      else if AllReadable(l.pending) then Accepted(Heard(l, e), l.pending)
      else Heard(l, e).(pending := [], synced := false)
    else if l.dropping then Heard(l, e)
    else if |l.pending| >= MAX_REPORT_EVENTS then Heard(l, e).(pending := [], dropping := true)
    else Heard(l, e).(pending := l.pending + [e])
  }

  function Heard(l: Line, e: RawEvent): Line {
    l.(device := ApplyOne(l.device, e))
  }

  /** A new epoch: what was half read is dropped, and what is held stays silent. */
  function CutOff(l: Line): Line {
    if l.epoch >= U64_MAX then l
    else l.(epoch := l.epoch + 1, pending := [], dropping := false, suppressed := l.down,
            synced := l.synced && l.pending == [] && !l.dropping)
  }

  /** After a loss, the device is asked what is down. */
  function Regained(l: Line, bitmap: seq<u8>): Line {
    if !l.needs || l.epoch >= U64_MAX then l
    else Line([], false, false, KeysIn(bitmap), KeysIn(bitmap), l.epoch + 1, l.emitted, KeysIn(bitmap), true, l.broken)
  }

  /** The device tells only what its keys can do, as long as nothing it told was missed. */
  predicate Plausible(l: Line, e: RawEvent) {
    l.synced && !l.dropping && !l.needs ==> OneConsistent(l.device, e)
  }

  ghost predicate Sound(l: Line) {
    && |l.pending| <= MAX_REPORT_EVENTS && (l.dropping ==> l.pending == [])
    && SuppressedDown(l.down, l.suppressed) && Orderly(l.emitted, l.epoch, l.broken, l.down, l.suppressed)
    && (l.synced && !l.dropping && !l.needs ==> Consistent(l.down, l.pending) && l.device == ApplyAll(l.down, l.pending))
  }

  lemma StartSound()
    ensures Sound(Start())
  {
    OrderlyStart(Up());
  }

  lemma {:induction false} SuppressedStays(down: KeySet, silent: KeySet, report: seq<RawEvent>)
    requires SuppressedDown(down, silent) && AllReadable(report)
    ensures SuppressedDown(ApplyAll(down, report), SilentAll(silent, report))
  {
    if report != [] {
      var init, e := report[..|report| - 1], report[|report| - 1];
      SuppressedStays(down, silent, init);
    }
  }

  /** What a consistent report is passed on as keeps its listeners in step. */
  lemma {:induction false} PassedKeepsStep(events: seq<KeyEvent>, epoch: nat, down: KeySet, silent: KeySet, report: seq<RawEvent>)
    requires SuppressedDown(down, silent) && AllReadable(report) && Consistent(down, report)
    requires InStep(events, epoch, down, silent)
    ensures InStep(events + PassedAll(silent, report, epoch), epoch, ApplyAll(down, report), SilentAll(silent, report))
  {
    if report == [] {
      assert events + [] == events;
    } else {
      var init, e := report[..|report| - 1], report[|report| - 1];
      PassedKeepsStep(events, epoch, down, silent, init);
      SuppressedStays(down, silent, init);
      assert Readable(e);
      var sent, nowDown, nowSilent := events + PassedAll(silent, init, epoch), ApplyAll(down, init), SilentAll(silent, init);
      var more := PassedOne(nowSilent, e, epoch);
      assert events + PassedAll(silent, report, epoch) == sent + more;
      if KeyOf(e).Some? {
        StepKeepsCycles(sent, epoch, nowDown, nowSilent, KeyOf(e).value, ActionOf(e).value,
                        TimestampNs(e.seconds, e.microseconds).value);
      }
      assert more == [] ==> sent + more == sent;
    }
  }

  lemma {:induction false} PassedEpochs(silent: KeySet, report: seq<RawEvent>, epoch: nat)
    requires AllReadable(report)
    ensures forall i | 0 <= i < |PassedAll(silent, report, epoch)| :: PassedAll(silent, report, epoch)[i].epoch == epoch
  {
    if report != [] {
      PassedEpochs(silent, report[..|report| - 1], epoch);
    }
  }

  lemma AcceptedSound(l: Line)
    requires Sound(l) && AllReadable(l.pending) && !l.needs && !l.dropping
    ensures Sound(Accepted(l, l.pending))
  {
    var v := Accepted(l, l.pending);
    SuppressedStays(l.down, l.suppressed, l.pending);
    PassedEpochs(l.suppressed, l.pending, l.epoch);
    if l.synced && InStep(l.emitted, l.epoch, l.down, l.suppressed) {
      PassedKeepsStep(l.emitted, l.epoch, l.down, l.suppressed, l.pending);
    }
    Delivery(l.emitted, PassedAll(l.suppressed, l.pending, l.epoch), l.epoch, l.broken, v.broken, l.down, l.suppressed,
             v.down, v.suppressed);
  }

  lemma FedSound(l: Line, e: RawEvent)
    requires Sound(l) && Plausible(l, e)
    ensures Sound(Fed(l, e))
  {
    ConsistentOne(l.down, l.pending, e);
    var told := Heard(l, e);
    if IsBoundary(e) && !l.needs && !l.dropping && AllReadable(l.pending) {
      assert told == l;
      AcceptedSound(l);
    }
  }

  lemma CutSound(l: Line)
    requires Sound(l)
    ensures Sound(CutOff(l))
    ensures l.epoch < U64_MAX ==> forall i | 0 <= i < |l.emitted| :: l.emitted[i].epoch < CutOff(l).epoch
  {
    if l.epoch < U64_MAX {
      NewEpoch(l.emitted, l.epoch, l.epoch + 1, l.broken, l.down, l.suppressed, l.down);
      assert forall i | 0 <= i < |l.emitted| :: l.emitted[i].epoch <= l.epoch by {
        Unlock();
      }
    }
  }

  lemma RegainedSound(l: Line, bitmap: seq<u8>)
    requires Sound(l)
    ensures Sound(Regained(l, bitmap))
  {
    if l.needs && l.epoch < U64_MAX {
      NewEpoch(l.emitted, l.epoch, l.epoch + 1, l.broken, l.down, l.suppressed, KeysIn(bitmap));
    }
  }

  // ----- runs -----

  datatype Act = Feed(event: RawEvent) | Cut | Regain(bitmap: seq<u8>)

  function Next(l: Line, act: Act): Line {
    if act.Feed? then Fed(l, act.event) else if act.Cut? then CutOff(l) else Regained(l, act.bitmap)
  }

  function After(acts: seq<Act>): Line {
    if acts == [] then Start() else Next(After(acts[..|acts| - 1]), acts[|acts| - 1])
  }

  /** The device is a real one: as long as nothing was missed, its keys go down before they come up. */
  predicate RealDevice(acts: seq<Act>) {
    acts == [] || (RealDevice(acts[..|acts| - 1])
                   && (acts[|acts| - 1].Feed? ==> Plausible(After(acts[..|acts| - 1]), acts[|acts| - 1].event)))
  }

  /** An act that makes nothing the device told go missing unnoticed: no report is refused, and no cut
      comes in the middle of one. */
  predicate Careful(l: Line, act: Act) {
    && (act.Feed? && IsBoundary(act.event) && !l.needs && !l.dropping ==> AllReadable(l.pending))
    && (act.Cut? && l.epoch < U64_MAX ==> l.pending == [] && !l.dropping)
  }

  predicate AllCareful(acts: seq<Act>) {
    acts == [] || (AllCareful(acts[..|acts| - 1]) && Careful(After(acts[..|acts| - 1]), acts[|acts| - 1]))
  }

  /** Every run of a real device keeps what was passed on orderly. */
  lemma {:induction false} RunSound(acts: seq<Act>)
    requires RealDevice(acts)
    ensures Sound(After(acts))
  {
    if acts == [] {
      StartSound();
    } else {
      var init, act := acts[..|acts| - 1], acts[|acts| - 1];
      RunSound(init);
      match act {
        case Feed(e) => FedSound(After(init), e);
        case Cut => CutSound(After(init));
        case Regain(bitmap) => RegainedSound(After(init), bitmap);
      }
    }
  }

  lemma {:induction false} CarefulSynced(acts: seq<Act>)
    requires AllCareful(acts)
    ensures After(acts).synced && After(acts).broken == {}
  {
    if acts != [] {
      CarefulSynced(acts[..|acts| - 1]);
    }
  }

  /** When every report of a real device can be read and every cut comes between two reports, what is
      passed on in any epoch is whole cycles of every key, each beginning with a press. */
  lemma CarefulRunIsCycles(acts: seq<Act>, n: nat, key: nat)
    requires RealDevice(acts) && AllCareful(acts) && key < KEY_COUNT
    ensures Cycles(Actions(After(acts).emitted, n, key))
    ensures Actions(After(acts).emitted, n, key) != [] ==> Actions(After(acts).emitted, n, key)[0].Pressed?
  {
    RunSound(acts);
    CarefulSynced(acts);
    var l := After(acts);
    EpochIsCycles(l.emitted, l.epoch, l.broken, l.down, l.suppressed, n, key);
  }

  // ----- after a report that could not be read -----

  /** What is told of a key that was down, or not, when it began. */
  predicate From(down: bool, actions: seq<Action>) {
    actions == [] || (From(down, actions[..|actions| - 1])
                      && Allowed(Left(down, actions[..|actions| - 1]), actions[|actions| - 1]))
  }

  /** Whether it is down in the end. */
  predicate Left(down: bool, actions: seq<Action>) {
    if actions == [] then down else !actions[|actions| - 1].Released?
  }

  /** Whole cycles followed by more: whole cycles exactly when the rest is told of a key that is down just
      when they end with it down. */
  lemma {:induction false} CyclesAppend(first: seq<Action>, rest: seq<Action>)
    requires Cycles(first)
    ensures Cycles(first + rest) <==> From(EndsDown(first), rest)
    ensures EndsDown(first + rest) == Left(EndsDown(first), rest)
    decreases |rest|
  {
    if rest == [] {
      assert first + rest == first;
    } else {
      CyclesAppend(first, rest[..|rest| - 1]);
      assert (first + rest)[..|first + rest| - 1] == first + rest[..|rest| - 1];
    }
  }

  /** What can be told of a key that is down can not be told of one that is up, nor the other way round. */
  lemma {:induction false} FromOne(down: bool, other: bool, actions: seq<Action>)
    requires From(down, actions) && actions != []
    ensures From(other, actions) <==> other == down
  {
    if |actions| > 1 {
      FromOne(down, other, actions[..|actions| - 1]);
    }
  }

  lemma {:induction false} FromReleased(down: bool, actions: seq<Action>, n: nat)
    requires From(down, actions) && n < |actions| && actions[n].Released?
    ensures From(false, actions[n + 1..]) && Left(false, actions[n + 1..]) == Left(down, actions)
    decreases |actions|
  {
    if n + 1 < |actions| {
      var init := actions[..|actions| - 1];
      FromReleased(down, init, n);
      assert actions[n + 1..][..|actions| - n - 2] == init[n + 1..];
    }
  }

  /** A device's records say of each key what can be told of it. */
  lemma {:induction false} KeyActionsFrom(down: KeySet, report: seq<RawEvent>, key: nat)
    requires Consistent(down, report) && AllReadable(report) && key < KEY_COUNT
    ensures From(down[key], KeyActions(report, key)) && Left(down[key], KeyActions(report, key)) == ApplyAll(down, report)[key]
  {
    if report != [] {
      var init, e := report[..|report| - 1], report[|report| - 1];
      KeyActionsFrom(down, init, key);
      assert report == init + [e] && Readable(e);
      ConsistentOne(down, init, e);
      KeyActionsOne(init, e, key);
      if KeyOf(e) == Some(key) {
        FromNext(down[key], KeyActions(init, key), ActionOf(e).value);
      }
    }
  }

  lemma KeyActionsOne(report: seq<RawEvent>, e: RawEvent, key: nat)
    ensures KeyActions(report + [e], key)
            == if KeyOf(e) == Some(key) && ActionOf(e).Some? then KeyActions(report, key) + [ActionOf(e).value]
               else KeyActions(report, key)
  {
    assert (report + [e])[..|report|] == report;
  }

  lemma FromNext(down: bool, actions: seq<Action>, a: Action)
    ensures From(down, actions + [a]) <==> From(down, actions) && Allowed(Left(down, actions), a)
    ensures Left(down, actions + [a]) == !a.Released?
  {
    assert (actions + [a])[..|actions|] == actions;
  }

  lemma {:induction false} ActionsAppend(events: seq<KeyEvent>, more: seq<KeyEvent>, epoch: nat, key: nat)
    ensures Actions(events + more, epoch, key) == Actions(events, epoch, key) + Actions(more, epoch, key)
    decreases |more|
  {
    if more == [] {
      assert events + more == events;
    } else {
      ActionsAppend(events, more[..|more| - 1], epoch, key);
      assert events + more == (events + more[..|more| - 1]) + [more[|more| - 1]];
      ActionsOne(events + more[..|more| - 1], more[|more| - 1], epoch, key);
    }
  }

  /** A report accepted while the key state is not the device's, for records having gone missing: a key is
      still told of in whole cycles exactly when it is kept silent, or what is believed of it happens to be
      true, or the report says nothing of it. */
  lemma AcceptedCyclesIff(l: Line, device: KeySet, report: seq<RawEvent>, key: nat)
    requires InStep(l.emitted, l.epoch, l.down, l.suppressed) && AllReadable(report) && Consistent(device, report)
    requires key < KEY_COUNT
    ensures Cycles(Actions(Accepted(l, report).emitted, l.epoch, key))
            <==> l.suppressed[key] || l.down[key] == device[key] || KeyActions(report, key) == []
  {
    var told, did := Actions(l.emitted, l.epoch, key), KeyActions(report, key);
    var heard := Actions(PassedAll(l.suppressed, report, l.epoch), l.epoch, key);
    assert KeyInStep(l.emitted, l.epoch, l.down, l.suppressed, key);
    PassedByKey(l.suppressed, report, l.epoch, key);
    KeyActionsFrom(device, report, key);
    ActionsAppend(l.emitted, PassedAll(l.suppressed, report, l.epoch), l.epoch, key);
    CyclesAppend(told, heard);
    if l.suppressed[key] {
      HeardFrom(device[key], did, heard);
    } else if did != [] {
      FromOne(device[key], l.down[key], did);
    }
  }

  lemma HeardFrom(down: bool, did: seq<Action>, heard: seq<Action>)
    requires From(down, did) && HeardAfterRelease(did, heard)
    ensures From(false, heard)
  {
    if !NoRelease(did) {
      var n: nat :| 0 <= n < |did| && did[n].Released? && NoRelease(did[..n]) && heard == did[n + 1..];
      FromReleased(down, did, n);
    }
  }

  /** The records of one report, up to its end. */
  function FedAll(l: Line, report: seq<RawEvent>): Line {
    if report == [] then l else Fed(FedAll(l, report[..|report| - 1]), report[|report| - 1])
  }

  lemma {:induction false} FedReport(l: Line, report: seq<RawEvent>)
    requires l.pending == [] && !l.dropping && !l.needs && |report| <= MAX_REPORT_EVENTS
    requires forall i | 0 <= i < |report| :: !IsDrop(report[i]) && !IsBoundary(report[i])
    ensures FedAll(l, report) == l.(pending := report, device := ApplyAll(l.device, report))
  {
    if report != [] {
      FedReport(l, report[..|report| - 1]);
    }
  }

  /** A report that could be read, after one that could not: which keys are still told of in whole cycles. */
  lemma RefusedThenReadable(l: Line, end: RawEvent, report: seq<RawEvent>, nextEnd: RawEvent, key: nat)
    requires Sound(l) && l.synced && !l.dropping && !l.needs && l.epoch !in l.broken
    requires IsBoundary(end) && IsBoundary(nextEnd) && !AllReadable(l.pending)
    requires AllReadable(report) && Consistent(l.device, report) && |report| <= MAX_REPORT_EVENTS
    requires forall i | 0 <= i < |report| :: !IsDrop(report[i]) && !IsBoundary(report[i])
    requires key < KEY_COUNT
    ensures var refused := Fed(l, end);
            && refused.emitted == l.emitted && refused.down == l.down && refused.suppressed == l.suppressed
            && (Cycles(Actions(Fed(FedAll(refused, report), nextEnd).emitted, l.epoch, key))
                <==> l.suppressed[key] || l.down[key] == l.device[key] || KeyActions(report, key) == [])
  {
    var refused := Fed(l, end);
    SynedNothing(l.device, end);
    assert refused == l.(pending := [], synced := false);
    FedReport(refused, report);
    InStepNow(l);
    AcceptedCyclesIff(refused, l.device, report, key);
  }

  /** The rest of a report, after a cut in the middle of it: which keys are told of in whole cycles in the
      new epoch. Those pressed before the cut and told of after it are not. */
  lemma CutThenReadable(l: Line, report: seq<RawEvent>, end: RawEvent, key: nat)
    requires Sound(l) && l.synced && !l.dropping && !l.needs && l.epoch < U64_MAX && l.epoch + 1 !in l.broken
    requires AllReadable(report) && Consistent(l.device, report) && |report| <= MAX_REPORT_EVENTS && IsBoundary(end)
    requires forall i | 0 <= i < |report| :: !IsDrop(report[i]) && !IsBoundary(report[i])
    requires key < KEY_COUNT
    ensures Cycles(Actions(Fed(FedAll(CutOff(l), report), end).emitted, l.epoch + 1, key))
            <==> l.down[key] || !l.device[key] || KeyActions(report, key) == []
  {
    var cut := CutOff(l);
    CutSound(l);
    FedReport(cut, report);
    InStepNow(cut);
    AcceptedCyclesIff(cut, l.device, report, key);
  }

  lemma SynedNothing(device: KeySet, end: RawEvent)
    requires IsBoundary(end)
    ensures ApplyOne(device, end) == device
  {
  }

  lemma InStepNow(l: Line)
    requires Sound(l) && l.epoch !in l.broken
    ensures InStep(l.emitted, l.epoch, l.down, l.suppressed)
  {
    Unlock();
  }

  const SYNC := RawEvent(0, 0, EV_SYN, SYN_REPORT, 0)
  const PRESS := RawEvent(-1, 0, EV_KEY, 1, 1)
  const RELEASE := RawEvent(0, 0, EV_KEY, 1, 0)
  const REFUSED_PRESS: seq<Act> := [Feed(PRESS), Feed(SYNC), Feed(RELEASE), Feed(SYNC)]

  /** Without that it fails: a press whose report is refused for its time, and a release that is
      passed on with no press before it. */
  lemma RefusedPressThenRelease()
    ensures RealDevice(REFUSED_PRESS) && !AllCareful(REFUSED_PRESS)
    ensures After(REFUSED_PRESS).emitted == [KeyEvent(0, 0, Released, 1)]
    ensures !Cycles(Actions(After(REFUSED_PRESS).emitted, 1, 0))
  {
    PressRefused();
    RefusedSteps();
    var heard := [Feed(PRESS), Feed(SYNC), Feed(RELEASE)];
    AfterOne([Feed(PRESS), Feed(SYNC)], Feed(RELEASE), heard);
    AfterOne(heard, Feed(SYNC), REFUSED_PRESS);
    LoneRelease();
  }

  lemma LoneRelease()
    ensures !Cycles(Actions([KeyEvent(0, 0, Released, 1)], 1, 0))
  {
    assert [KeyEvent(0, 0, Released, 1)][..0] == [] && Actions([KeyEvent(0, 0, Released, 1)], 1, 0) == [Released];
    assert [Released][..0] == [];
  }

  /** The press, and its report refused: the key is believed up, and the device has it down. */
  lemma PressRefused()
    ensures var acts := [Feed(PRESS), Feed(SYNC)];
            && After(acts) == Start().(device := Up()[0 := true], synced := false)
            && RealDevice(acts) && !AllCareful(acts)
  {
    RefusedSteps();
    AfterOne([], Feed(PRESS), [Feed(PRESS)]);
    AfterOne([Feed(PRESS)], Feed(SYNC), [Feed(PRESS), Feed(SYNC)]);
  }

  lemma AfterOne(acts: seq<Act>, act: Act, more: seq<Act>)
    requires more == acts + [act]
    ensures After(more) == Next(After(acts), act)
    ensures RealDevice(acts) && (act.Feed? ==> Plausible(After(acts), act.event)) ==> RealDevice(more)
    ensures AllCareful(more) ==> AllCareful(acts) && Careful(After(acts), act)
  {
    assert more[..|more| - 1] == acts;
  }

  lemma RefusedSteps()
    ensures ApplyOne(Up(), PRESS) == Up()[0 := true] && ApplyOne(Up()[0 := true], RELEASE) == Up()
    ensures !AllReadable([PRESS]) && AllReadable([RELEASE])
    ensures PassedAll(Up(), [RELEASE], 1) == [KeyEvent(0, 0, Released, 1)]
  {
    assert !Readable([PRESS][0]);
    assert [RELEASE][..0] == [];
    assert PassedOne(Up(), RELEASE, 1) == [KeyEvent(0, 0, Released, 1)];
    assert Up()[0 := true][0 := false] == Up();
  }

  // ----- the pipeline -----

  datatype Batch = Keys(epoch: nat, events: seq<KeyEvent>) | Lost(epoch: nat)

  datatype PipelineStatus = Waiting | Delivered(batch: Batch) | ReacquireKeyState

  class InputPipeline {
    const reports: ReportAccumulator
    const keys: KeyNormalizer
    var epoch: u64
    var needsReacquisition: bool

    ghost var emitted: seq<KeyEvent>
    ghost var device: KeySet
    ghost var synced: bool
    ghost var broken: set<nat>

    ghost function AsLine(): Line
      reads this, reports, keys
    {
      Line(reports.pending, reports.dropping, needsReacquisition, keys.down, keys.suppressed, epoch, emitted, device, synced,
           broken)
    }

    constructor ()
      ensures fresh(this) && fresh(reports) && fresh(keys) && AsLine() == Start() && reports.Valid()
    {
      reports := new ReportAccumulator();
      keys := new KeyNormalizer();
      epoch, needsReacquisition := 1, false;
      emitted, device, synced, broken := [], Up(), true, {};
    }

    /** `accept`: work from an earlier epoch is refused. */
    method Accept(e: KeyEvent) returns (r: Option<KeyEvent>)
      ensures r.Some? <==> e.epoch == epoch
      ensures r.Some? ==> r.value == e
    {
      return if e.epoch == epoch then Some(e) else None;
    }

    /** `push`: what `Fed` says, and the answer with it. A batch is exactly what was passed on. */
    method Push(e: RawEvent) returns (r: Result<PipelineStatus, InputError>)
      requires reports.Valid()
      modifies this, reports, keys
      ensures reports.Valid() && AsLine() == Fed(old(AsLine()), e)
      ensures old(needsReacquisition) <==> r == Err(ReacquisitionRequired)
      ensures r.Ok? && r.value.Delivered? ==> r.value.batch == Keys(epoch, emitted[|old(emitted)|..])
      ensures r.Ok? && r.value.Delivered? <==>
                IsBoundary(e) && !old(needsReacquisition) && !old(reports.dropping) && AllReadable(old(reports.pending))
      ensures r.Ok? && r.value.Delivered? ==> e.eventType == 0 && e.code == 0
      ensures r.Ok? && r.value.ReacquireKeyState? <==> needsReacquisition && !old(needsReacquisition)
      ensures r.Ok? && r.value.ReacquireKeyState? <==>
                e.eventType == 0 && e.code == 0 && !old(needsReacquisition) && old(reports.dropping)
      ensures e.eventType == 0 && e.code == 3 && !old(needsReacquisition) ==> r == Ok(Waiting) && reports.dropping
      ensures IsBoundary(e) && !old(needsReacquisition) && r.Err? ==> RefusedFor(old(reports.pending), r.error)
    {
      ghost var told := device;
      device := ApplyOne(device, e);
      if needsReacquisition {
        return Err(ReacquisitionRequired);
      }
      var status := reports.Push(e);
      if status.Err? {
        return Err(status.error);
      }
      match status.value {
        case Pending =>
          return Ok(Waiting);
        case Discontinuity =>
          needsReacquisition := true;
          return Ok(ReacquireKeyState);
        case Complete(report) =>
          r := Deliver(report);
      }
    }

    /** A complete report, normalized and passed on. */
    method Deliver(report: seq<RawEvent>) returns (r: Result<PipelineStatus, InputError>)
      requires reports.pending == [] && !reports.dropping && !needsReacquisition
      modifies `emitted, `broken, `synced, keys
      ensures if AllReadable(report) then
                AsLine() == Accepted(old(AsLine()), report)
                && r == Ok(Delivered(Keys(epoch, emitted[|old(emitted)|..]))) && old(emitted) <= emitted
              else
                AsLine() == old(AsLine()).(synced := false) && r.Err? && RefusedFor(report, r.error)
    {
      var events := keys.Normalize(report, epoch);
      if events.Err? {
        synced := false;
        return Err(events.error);
      }
      if !synced {
        broken := broken + {epoch as int};
      }
      emitted := emitted + events.value;
      return Ok(Delivered(Keys(epoch, events.value)));
    }

    /** `advance`: the epoch strictly grows past everything passed on before, whatever was half read
        is dropped, and what is held stays silent. */
    method Advance() returns (r: Result<nat, InputError>)
      requires reports.Valid() && Sound(AsLine())
      modifies this, reports, keys
      ensures reports.Valid() && AsLine() == CutOff(old(AsLine())) && Sound(AsLine())
      ensures r == if old(epoch) < U64_MAX then Ok(old(epoch) as int + 1) else Err(EpochOverflow)
      ensures r.Ok? ==> emitted == old(emitted) && forall i | 0 <= i < |emitted| :: emitted[i].epoch < epoch
    {
      CutSound(AsLine());
      if epoch == U64_MAX {
        return Err(EpochOverflow);
      }
      if reports.pending != [] || reports.dropping {
        synced := false;
      }
      epoch := epoch + 1;
      reports.Reset();
      keys.SuppressHeld();
      return Ok(epoch);
    }

    /** `reacquire`: after a loss, the device is asked what is down, and nothing is made up. */
    method Reacquire(bitmap: seq<u8>) returns (r: Result<Batch, InputError>)
      requires reports.Valid() && Sound(AsLine())
      modifies this, reports, keys
      ensures reports.Valid() && AsLine() == Regained(old(AsLine()), bitmap)
      ensures r == if !old(needsReacquisition) then Err(ReacquisitionNotRequired)
                   else if old(epoch) == U64_MAX then Err(EpochOverflow) else Ok(Lost(old(epoch) as int + 1))
    {
      if !needsReacquisition {
        return Err(ReacquisitionNotRequired);
      }
      var advanced := Advance();
      if advanced.Err? {
        return Err(advanced.error);
      }
      keys.Reacquire(bitmap);
      device, synced := keys.down, true;
      needsReacquisition := false;
      return Ok(Lost(epoch));
    }

    method Perform(act: Act)
      requires reports.Valid() && Sound(AsLine())
      modifies this, reports, keys
      ensures reports.Valid() && AsLine() == Next(old(AsLine()), act)
    {
      match act {
        case Feed(e) => var r := Push(e);
        case Cut => var r := Advance();
        case Regain(bitmap) => var r := Reacquire(bitmap);
      }
    }
  }

  /** In a device's own numbers: key 28 pressed at five seconds and a quarter of a millisecond, and the end of
      the report. The press is passed on. */
  method EnterPressed() returns (pipeline: InputPipeline, r: Result<PipelineStatus, InputError>)
    ensures fresh(pipeline)
    ensures r == Ok(Delivered(Keys(1, [KeyEvent(5_000_250_000, 1, Pressed, 1)])))
    ensures pipeline.keys.down[1] && !pipeline.needsReacquisition && !pipeline.reports.dropping
  {
    pipeline := new InputPipeline();
    var press := RawEvent(5, 250, 1, 28, 1);
    var first := pipeline.Push(press);
    r := pipeline.Push(RawEvent(5, 250, 0, 0, 0));
    EnterPassed(press);
  }

  lemma EnterPassed(press: RawEvent)
    requires press == RawEvent(5, 250, 1, 28, 1)
    ensures AllReadable([press]) && PassedAll(Up(), [press], 1) == [KeyEvent(5_000_250_000, 1, Pressed, 1)]
    ensures ApplyAll(Up(), [press])[1]
  {
    assert [press][..0] == [];
    assert PassedOne(Up(), press, 1) == [KeyEvent(5_000_250_000, 1, Pressed, 1)];
    assert SilentAll(Up(), []) == Up() && ApplyAll(Up(), []) == Up();
  }

  /** A lost record, in the same numbers: the end of the report asks for the device's state. */
  method RecordsLost() returns (pipeline: InputPipeline, r: Result<PipelineStatus, InputError>)
    ensures fresh(pipeline) && r == Ok(ReacquireKeyState) && pipeline.emitted == []
  {
    pipeline := new InputPipeline();
    var first := pipeline.Push(RawEvent(5, 250, 1, 28, 1));
    var lost := pipeline.Push(RawEvent(5, 250, 0, 3, 0));
    r := pipeline.Push(RawEvent(5, 250, 0, 0, 0));
  }

  /** Any run of the pipeline over a real device does what `After` says. */
  method RunPipeline(acts: seq<Act>) returns (pipeline: InputPipeline)
    requires RealDevice(acts)
    ensures fresh(pipeline) && pipeline.AsLine() == After(acts) && Sound(pipeline.AsLine())
    ensures AllCareful(acts) ==> forall n: nat, key: nat | key < KEY_COUNT :: Cycles(Actions(pipeline.emitted, n, key))
  {
    pipeline := new InputPipeline();
    StartSound();
    var i := 0;
    while i < |acts|
      invariant 0 <= i <= |acts| && fresh(pipeline) && fresh(pipeline.reports) && fresh(pipeline.keys)
      invariant pipeline.reports.Valid() && RealDevice(acts[..i])
      invariant pipeline.AsLine() == After(acts[..i]) && Sound(pipeline.AsLine())
    {
      RealPrefix(acts, i + 1);
      assert acts[..i + 1][..i] == acts[..i] && acts[..i + 1][i] == acts[i];
      RunSound(acts[..i + 1]);
      pipeline.Perform(acts[i]);
      i := i + 1;
    }
    assert acts[..i] == acts;
    if AllCareful(acts) {
      forall n: nat, key: nat | key < KEY_COUNT ensures Cycles(Actions(pipeline.emitted, n, key)) {
        CarefulRunIsCycles(acts, n, key);
      }
    }
  }

  lemma {:induction false} RealPrefix(acts: seq<Act>, n: nat)
    requires RealDevice(acts) && n <= |acts|
    ensures RealDevice(acts[..n])
    decreases |acts|
  {
    if n < |acts| {
      RealPrefix(acts[..|acts| - 1], n);
      assert acts[..|acts| - 1][..n] == acts[..n];
    } else {
      assert acts[..n] == acts;
    }
  }

  lemma {:induction false} OtherEpoch(history: seq<KeyEvent>, events: seq<KeyEvent>, epoch: nat, n: nat, key: nat)
    requires n != epoch && forall i | 0 <= i < |events| :: events[i].epoch == epoch
    ensures Actions(history + events, n, key) == Actions(history, n, key)
    decreases |events|
  {
    if events == [] {
      assert history + events == history;
    } else {
      var init, last := events[..|events| - 1], events[|events| - 1];
      assert history + events == (history + init) + [last];
      OtherEpoch(history, init, epoch, n, key);
      ActionsOne(history + init, last, n, key);
    }
  }
}
