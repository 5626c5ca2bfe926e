// src/luadatabase.h:24-37 and src/luadatabase.cpp:23-48: when a suspended operation may go on,
// and the start/continue discipline of the connector's non-blocking calls.

module SocketStatus {

  /** Wait flags, with the values of mysql/mysql.h. */
  type Flags = bv8
  const WAIT_READ: Flags := 1
  const WAIT_WRITE: Flags := 2
  const WAIT_EXCEPT: Flags := 4
  const WAIT_TIMEOUT: Flags := 8

  /** What a suspended call returns: never 0. */
  type Wait = w: bv8 | w != 0 witness 1

  /** What `poll` finds on the socket; `failed` is a negative result of `poll`. */
  datatype Readiness = Readiness(readable: bool, writable: bool, urgent: bool, failed: bool)

  predicate Wants(status: Flags, flag: Flags) {
    status & flag != 0
  }

  /** `poll` with a zero timeout, asked only for the events named by `status`. */
  function GetCurrentDatabaseStatus(status: Flags, r: Readiness): Flags {
    var pollIn := Wants(status, WAIT_READ) && r.readable;
    var pollOut := Wants(status, WAIT_WRITE) && r.writable;
    var pollPri := Wants(status, WAIT_EXCEPT) && r.urgent;
    if r.failed || !(pollIn || pollOut || pollPri) then
      WAIT_TIMEOUT
    else
      (if pollIn then WAIT_READ else 0)
      | (if pollOut then WAIT_WRITE else 0)
      | (if pollPri then WAIT_EXCEPT else 0)
  }

  predicate CheckDatabaseStatus(waiting: Flags, r: Readiness) {
    if waiting == 0 then
      true
    else
      var wstate0 := waiting & (WAIT_READ | WAIT_WRITE);
      var wstate1 := waiting & WAIT_EXCEPT;
      var current := GetCurrentDatabaseStatus(waiting, r);
      var cstate0 := current & (WAIT_READ | WAIT_WRITE);
      var cstate1 := current & WAIT_EXCEPT;
      (wstate0 == cstate0 && wstate0 != 0) || (wstate1 == cstate1 && wstate1 != 0)
  }

  /** The bit tests in words: every requested one of read (1) and write (2) must be ready at once, or the
      requested exceptional condition (4) must be present. */
  lemma CheckMeaning(waiting: Flags, r: Readiness)
    ensures var read, write, except := waiting & 1 != 0, waiting & 2 != 0, waiting & 4 != 0;
            CheckDatabaseStatus(waiting, r) <==>
            || waiting == 0
            || (&& !r.failed
                && (|| (&& (read || write)
                        && (read ==> r.readable)
                        && (write ==> r.writable))
                    || (except && r.urgent)))
  {
  }

  /** Some state of the socket lets an operation that waits for `waiting` continue. */
  predicate Wakeable(waiting: Flags) {
    waiting == 0 || waiting & (WAIT_READ | WAIT_WRITE | WAIT_EXCEPT) != 0
  }

  predicate AllWakeable(waits: seq<Flags>) {
    forall k :: 0 <= k < |waits| ==> Wakeable(waits[k])
  }

  lemma AllWakeableAppend(a: seq<Flags>, b: seq<Flags>)
    ensures AllWakeable(a + b) <==> AllWakeable(a) && AllWakeable(b)
  {
    if AllWakeable(a + b) {
      forall k | 0 <= k < |a| ensures Wakeable(a[k]) {
        assert (a + b)[k] == a[k];
      }
      forall k | 0 <= k < |b| ensures Wakeable(b[k]) {
        assert (a + b)[|a| + k] == b[k];
      }
    }
  }

  lemma AllWakeableOne(flags: Flags)
    ensures AllWakeable([flags]) <==> Wakeable(flags)
    ensures AllWakeable([])
  {
    if AllWakeable([flags]) {
      assert Wakeable([flags][0]);
    }
  }

  /** The state of a socket on which every poll succeeds. */
  const ALL_READY := Readiness(true, true, true, false)

  function AllReady(n: nat): (schedule: seq<Readiness>)
    ensures |schedule| == n
  {
    if n == 0 then [] else [ALL_READY] + AllReady(n - 1)
  }

  /** A wait for a timeout alone never passes the test, because the timeout is compared with nothing;
      every other one passes it on a fully ready socket. */
  lemma WakeableExactly(waiting: Flags)
    ensures Wakeable(waiting) <==> exists r :: CheckDatabaseStatus(waiting, r)
    ensures Wakeable(waiting) ==> CheckDatabaseStatus(waiting, ALL_READY)
  {
    CheckMeaning(waiting, ALL_READY);
    forall r | CheckDatabaseStatus(waiting, r) ensures Wakeable(waiting) {
      CheckMeaning(waiting, r);
    }
  }

  /** A non-blocking call on a connection and the status it returned. */
  datatype Call = StartCall(ret: Flags) | ContinueCall(ret: Flags)

  /** The last call left an operation suspended. */
  predicate Suspended(calls: seq<Call>) {
    calls != [] && calls[|calls| - 1].ret != 0
  }

  /** How many calls break the discipline start continue*: a start while an operation is
      suspended, or a continue while none is. */
  function Violations(calls: seq<Call>): nat {
    if calls == [] then
      0
    else
      var before := calls[..|calls| - 1];
      Violations(before) + if calls[|before|].StartCall? == Suspended(before) then 1 else 0
  }

  lemma ViolationsSnoc(calls: seq<Call>, call: Call)
    ensures Violations(calls + [call])
         == Violations(calls) + if call.StartCall? == Suspended(calls) then 1 else 0
    ensures Suspended(calls + [call]) == (call.ret != 0)
  {
    assert (calls + [call])[..|calls|] == calls;
  }
}
