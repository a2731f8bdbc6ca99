/** When the Execute of a Redis pub/sub user can still return: always, except once its receiver failed
    to subscribe, after which the user waits for a start that nobody announces. */
module RedisProgress {
  import opened Runs
  import opened RedisPubSub

  ghost predicate CanStart(u: User) { u.started || u.recv.Subscribing? || u.main.Start? || u.main.Parsing? }

  ghost function HasLeft(i: nat): State -> bool { (s: State) => i < |s.users| && s.users[i].main.Left? }

  ghost function HasStarted(i: nat): State -> bool { (s: State) => i < |s.users| && s.users[i].started }

  ghost function HasStranded(i: nat): State -> bool { (s: State) => i < |s.users| && Stranded(s.users[i]) }

  // ----- what never comes back -----

  lemma MainStaysLost(u: User, v: User, field: nat, delta: int)
    requires !CanStart(u) && MainMoves(u, v, field, delta)
    ensures !CanStart(v) && !u.main.WaitStart? && !v.main.WaitStart?
  {
  }

  lemma RecvStaysLost(s: State, u: User, v: User, field: nat, delta: int)
    requires !CanStart(u) && RecvMoves(s, u, v, field, delta)
    ensures !CanStart(v) && v.main == u.main
  {
  }

  lemma LostStep(i: nat, s: State, t: State)
    requires i < |s.users| && !CanStart(s.users[i]) && Next(s, t)
    ensures i < |t.users| && !CanStart(t.users[i])
    ensures s.users[i].main.WaitStart? ==> t.users[i].main.WaitStart?
  {
    if j: nat, v, field: nat, delta :| Step(s, j, v, field, delta, t) {
      if j == i {
        if MainMoves(s.users[i], v, field, delta) {
          MainStaysLost(s.users[i], v, field, delta);
        } else {
          RecvStaysLost(s, s.users[i], v, field, delta);
        }
      }
    }
  }

  lemma LostForGood(tr: seq<State>, k: nat, l: nat, i: nat)
    requires Broadcasting(tr) && k <= l < |tr| && i < |tr[k].users| && !CanStart(tr[k].users[i])
    ensures i < |tr[l].users| && !CanStart(tr[l].users[i])
    ensures tr[k].users[i].main.WaitStart? ==> tr[l].users[i].main.WaitStart?
  {
    var start := (s: State) => s == tr[k];
    var inv := (s: State) =>
        i < |s.users| && !CanStart(s.users[i]) && (tr[k].users[i].main.WaitStart? ==> s.users[i].main.WaitStart?);
    forall s, t | inv(s) && Next(s, t) ensures inv(t) { LostStep(i, s, t); }
    assert Run(start, Next, tr[k..]);
    Always(start, Next, inv, tr[k..], l - k);
  }

  // ----- what can always be done -----

  lemma Takes(s: State, i: nat, v: User, field: nat, delta: int) returns (t: State)
    requires Inv(s) && i < |s.users| && field < FIELDS
    requires UserMoves(s, s.users[i], v, field, delta)
    ensures Next(s, t) && Inv(t)
    ensures t == s.(users := s.users[i := v], c := s.c[field := s.c[field] + delta])
  {
    t := s.(users := s.users[i := v], c := s.c[field := s.c[field] + delta]);
    assert Step(s, i, v, field, delta, t);
    NextKeeps(s, t);
  }

  /** Steps of the shortest way out, a failed publish or a timeout included. */
  function StepsToLeave(u: User): nat {
    match u.main
    case Start => 5
    case Parsing => 4
    case ParamLog => 2
    case WaitStart => if u.started then 8 else 9
    case Joining => 7
    case Publishing(_) => 6
    case Published(_) => 7
    case PublishLog => 3
    case Draining(_) => 5
    case Logging(_, _) => 6
    case TimedOut => 4
    case Succeeding => 4
    case SetExit => 3
    case Parting => 2
    case Leaving => 1
    case Left => 0
  }

  function TowardsExit(u: User): (User, nat, int) {
    match u.main
    case Start => (u.(main := Parsing), INPROGRESS, 1)
    case Parsing => (u.(main := ParamLog, fate := BadParams), 0, 0)
    case ParamLog => (u.(main := Leaving, out := Failed), ERROR, 1)
    case WaitStart => if u.started then (u.(main := Joining), 0, 0) else (u.(recv := Looping, started := true), 0, 0)
    case Joining => (u.(main := Publishing(0)), CONNECTED, 1)
    case Publishing(i) =>
      if i < u.total then (u.(main := PublishLog, fate := PublishFailed), 0, 0) else (u.(main := Draining(0)), 0, 0)
    case Published(i) => (u.(main := Publishing(i + 1), sent := u.sent + 1), SEND, 1)
    case PublishLog => (u.(main := Parting, out := Failed), ERROR, 1)
    case Draining(i) =>
      if i < u.total then (u.(main := TimedOut, fate := TimeUp), 0, 0) else (u.(main := Succeeding, fate := GotAll), 0, 0)
    case Logging(i, latency) => (u.(main := Draining(i + 1), logged := u.logged + [latency]), LatencyField(latency), 1)
    case TimedOut => (u.(main := SetExit, out := Late), NOTRECVALL, 1)
    case Succeeding => (u.(main := SetExit, out := Ok), SUCCESS, 1)
    case SetExit => (u.(main := Parting, exit := true), 0, 0)
    case Parting => (u.(main := Leaving), CONNECTED, -1)
    case _ => (u.(main := Left), INPROGRESS, -1)
  }

  lemma TowardsExitMoves(s: State, u: User)
    requires !Stranded(u) && !u.main.Left?
    ensures var r := TowardsExit(u);
            && r.1 < FIELDS && !Stranded(r.0) && StepsToLeave(r.0) < StepsToLeave(u)
            && (r.0.main.Left? ==> u.main.Leaving?)
            && (MainMoves(u, r.0, r.1, r.2) || RecvMoves(s, u, r.0, r.1, r.2))
  {
    var r := TowardsExit(u);
    if u.main.WaitStart? && !u.started {
      assert RecvMoves(s, u, r.0, r.1, r.2);
    }
  }

  /** t is s after steps of user i only. */
  ghost predicate OnlyUser(s: State, i: nat, t: State) {
    && Reaches(Next, s, t) && Inv(t) && i < |s.users| == |t.users|
    && t == s.(users := s.users[i := t.users[i]], c := t.c)
  }

  lemma OnlyUserFirst(s: State, i: nat, u: State, t: State)
    requires Next(s, u) && i < |s.users| == |u.users| && OnlyUser(u, i, t)
    requires u == s.(users := s.users[i := u.users[i]], c := u.c)
    ensures OnlyUser(s, i, t)
  {
    ReachFirst(Next, s, u, t);
  }

  lemma StepOut(s: State, i: nat) returns (u: State)
    requires Inv(s) && i < |s.users| && !Stranded(s.users[i]) && !s.users[i].main.Left?
    ensures Next(s, u) && Inv(u) && |u.users| == |s.users|
    ensures u == s.(users := s.users[i := u.users[i]], c := u.c)
    ensures u.users[i] == TowardsExit(s.users[i]).0 && !Stranded(u.users[i])
    ensures StepsToLeave(u.users[i]) < StepsToLeave(s.users[i]) && (u.users[i].main.Left? ==> s.users[i].main.Leaving?)
  {
    TowardsExitMoves(s, s.users[i]);
    var r := TowardsExit(s.users[i]);
    u := Takes(s, i, r.0, r.1, r.2);
  }

  /** A user that is not stranded can be brought to the end of its Execute. */
  lemma {:induction false} GoToLeaving(s: State, i: nat) returns (t: State)
    requires Inv(s) && i < |s.users| && !Stranded(s.users[i]) && !s.users[i].main.Left?
    ensures OnlyUser(s, i, t) && t.users[i].main.Leaving?
    decreases StepsToLeave(s.users[i])
  {
    if s.users[i].main.Leaving? {
      t := s;
      ReachSelf(Next, s);
    } else {
      var u := StepOut(s, i);
      t := GoToLeaving(u, i);
      OnlyUserFirst(s, i, u, t);
    }
  }

  lemma Leave(s: State, i: nat) returns (t: State)
    requires Inv(s) && i < |s.users| && !Stranded(s.users[i])
    ensures Reaches(Next, s, t) && HasLeft(i)(t)
  {
    if s.users[i].main.Left? {
      t := s;
      ReachSelf(Next, s);
    } else {
      var u := GoToLeaving(s, i);
      t := Takes(u, i, u.users[i].(main := Left), INPROGRESS, -1);
      ReachStep(Next, s, u, t);
    }
  }

  /** At every moment of every run, a user's Execute can still return if and only if the user is not
      waiting for a receiver that failed to subscribe. */
  lemma ExecuteCanReturnIff(tr: seq<State>, i: nat)
    requires Broadcasting(tr) && i < |Last(tr).users|
    ensures Possible(Init, Next, tr, HasLeft(i)) <==> !Stranded(Last(tr).users[i])
  {
    var s := Last(tr);
    if Stranded(s.users[i]) {
      forall more | Broadcasting(tr + more) ensures !HasLeft(i)(Last(tr + more)) {
        assert (tr + more)[|tr| - 1] == s;
        LostForGood(tr + more, |tr| - 1, |tr + more| - 1, i);
      }
    } else {
      AlwaysInv(tr, |tr| - 1);
      var t := Leave(s, i);
      ReachedIsPossible(Init, Next, tr, t, HasLeft(i));
    }
  }

  lemma {:induction false} StartUser(s: State, i: nat) returns (t: State)
    requires Inv(s) && i < |s.users| && CanStart(s.users[i])
    ensures Reaches(Next, s, t) && HasStarted(i)(t)
    decreases if s.users[i].main.Start? then 3 else if s.users[i].main.Parsing? then 2 else if s.users[i].started then 0 else 1
  {
    var u := s.users[i];
    if u.started {
      t := s;
      ReachSelf(Next, s);
    } else {
      var v: State;
      if u.recv.Subscribing? {
        v := Takes(s, i, u.(recv := Looping, started := true), 0, 0);
      } else if u.main.Start? {
        v := Takes(s, i, u.(main := Parsing), INPROGRESS, 1);
      } else {
        v := Takes(s, i, u.(main := WaitStart, recv := Subscribing), 0, 0);
      }
      t := StartUser(v, i);
      ReachFirst(Next, s, v, t);
    }
  }

  /** startChan of a user can still be closed if and only if its receiver has not failed to subscribe
      and its parameters have not been rejected. */
  lemma StartIff(tr: seq<State>, i: nat)
    requires Broadcasting(tr) && i < |Last(tr).users|
    ensures Possible(Init, Next, tr, HasStarted(i)) <==> CanStart(Last(tr).users[i])
  {
    var s := Last(tr);
    if CanStart(s.users[i]) {
      AlwaysInv(tr, |tr| - 1);
      var t := StartUser(s, i);
      ReachedIsPossible(Init, Next, tr, t, HasStarted(i));
    } else {
      forall more | Broadcasting(tr + more) ensures !HasStarted(i)(Last(tr + more)) {
        assert (tr + more)[|tr| - 1] == s;
        LostForGood(tr + more, |tr| - 1, |tr + more| - 1, i);
      }
    }
  }

  /** The user got past its start, or was turned away before it. */
  ghost predicate PastStart(u: User) { !u.main.Start? && !u.main.Parsing? && (u.main.WaitStart? ==> u.started) }

  lemma MainPastStart(u: User, v: User, field: nat, delta: int)
    requires PastStart(u) && MainMoves(u, v, field, delta)
    ensures PastStart(v)
  {
  }

  lemma RecvPastStart(s: State, u: User, v: User, field: nat, delta: int)
    requires PastStart(u) && RecvMoves(s, u, v, field, delta)
    ensures PastStart(v)
  {
    assert v.main == u.main;
    assert u.started ==> v.started;
  }

  lemma PastStartStep(i: nat, s: State, t: State)
    requires i < |s.users| && PastStart(s.users[i]) && Next(s, t)
    ensures i < |t.users| && PastStart(t.users[i])
  {
    if j: nat, v, field: nat, delta :| Step(s, j, v, field, delta, t) {
      if j == i {
        if MainMoves(s.users[i], v, field, delta) {
          MainPastStart(s.users[i], v, field, delta);
        } else {
          RecvPastStart(s, s.users[i], v, field, delta);
        }
      }
    }
  }

  lemma {:induction false} Strand(s: State, i: nat) returns (t: State)
    requires Inv(s) && i < |s.users| && !PastStart(s.users[i])
    ensures Reaches(Next, s, t) && HasStranded(i)(t)
    decreases if s.users[i].main.Start? then 3 else if s.users[i].main.Parsing? then 2 else if Stranded(s.users[i]) then 0 else 1
  {
    var u := s.users[i];
    assert UserOk(i, u);
    if Stranded(u) {
      t := s;
      ReachSelf(Next, s);
    } else {
      var v: State;
      if u.main.Start? {
        v := Takes(s, i, u.(main := Parsing), INPROGRESS, 1);
      } else if u.main.Parsing? {
        v := Takes(s, i, u.(main := WaitStart, recv := Subscribing), 0, 0);
      } else {
        v := Takes(s, i, u.(recv := SubscribeLog, faults := u.faults + 1), 0, 0);
      }
      t := Strand(v, i);
      ReachFirst(Next, s, v, t);
    }
  }

  /** Every user can still be stranded until it got past its start, and none after. */
  lemma StrandIff(tr: seq<State>, i: nat)
    requires Broadcasting(tr) && i < |Last(tr).users|
    ensures Possible(Init, Next, tr, HasStranded(i)) <==> !PastStart(Last(tr).users[i])
  {
    var s := Last(tr);
    if PastStart(s.users[i]) {
      forall more | Broadcasting(tr + more) ensures !HasStranded(i)(Last(tr + more)) {
        var long := tr + more;
        var start := (x: State) => x == s;
        var inv := (x: State) => i < |x.users| && PastStart(x.users[i]);
        forall x, y | inv(x) && Next(x, y) ensures inv(y) { PastStartStep(i, x, y); }
        assert Run(start, Next, long[|tr| - 1..]);
        Always(start, Next, inv, long[|tr| - 1..], |more|);
      }
    } else {
      AlwaysInv(tr, |tr| - 1);
      var t := Strand(s, i);
      ReachedIsPossible(Init, Next, tr, t, HasStranded(i));
    }
  }
}
