/** The sessions of a script: their ids never repeat, and a session that the writer extends is still in the table of
    the company that plays the script. */
module ScriptSessions {
  import opened Records
  import opened Company
  import opened Scripting
  import opened ScriptDesk

  // Every session is added once, under an id above all earlier ones and below `bound`.
  predicate IdsRise(steps: Script, bound: int) {
    && (forall i :: 0 <= i < |steps| && steps[i].AddSession? ==> steps[i].session.id < bound)
    && (forall i, j :: 0 <= i < j < |steps| && steps[i].AddSession? && steps[j].AddSession? ==>
          steps[i].session.id < steps[j].session.id)
  }

  // The session the writer remembers for customer `c + 1`: unless it has expired, the company has it as well, to
  // expire on the same day.  `collected` is the last day on which expired sessions were collected.
  predicate KeptOk(b: Books, kept: seq<Option<Session>>, c: nat, bound: int, collected: int)
    requires c < |kept|
  {
    kept[c].Some? ==>
      var s := kept[c].value;
      && s.customerId == Some(c + 1) && Int(c + 1) in b.customers && s.id < bound
      && (s.expiresOn > collected ==>
            Int(s.id) in b.sessions && |b.sessions[Int(s.id)]| == SESSION_WIDTH
            && !Visitor(b.sessions[Int(s.id)]) && IntAt(b.sessions[Int(s.id)], 2) == s.expiresOn)
  }

  predicate OwnSessions(kept: seq<Option<Session>>) {
    forall c, e :: 0 <= c < e < |kept| && kept[c].Some? && kept[e].Some? ==> kept[c].value.id != kept[e].value.id
  }

  predicate IdFree(b: Books, bound: int, x: int) {
    x >= bound ==> Int(x) !in b.sessions
  }

  ghost predicate SessionsOk(steps: Script, kept: seq<Option<Session>>, bound: int, collected: int) {
    var b := Play(Empty(), steps).books;
    && IdsRise(steps, bound) && OwnSessions(kept) && Seated(steps) && Lasting(steps)
    && (forall c :: 0 <= c < |kept| ==> KeptOk(b, kept, c, bound, collected))
    && (forall x :: IdFree(b, bound, x))
  }

  // Steps that add no session and leave the session table alone; more customers and a higher bound do no harm.
  lemma SessionsStay(steps: Script, steps': Script, kept: seq<Option<Session>>, bound: int, bound': int, collected: int)
    requires SessionsOk(steps, kept, bound, collected) && steps <= steps' && bound <= bound'
    requires forall i :: |steps| <= i < |steps'| ==> !steps'[i].AddSession? && !steps'[i].UpdateSession?
    requires forall i :: |steps| <= i < |steps'| && steps'[i].Day? ==>
               Play(Empty(), steps'[..i]).books.day <= steps'[i].day
    requires var b, b' := Play(Empty(), steps).books, Play(Empty(), steps').books;
             b'.sessions == b.sessions && forall k :: k in b.customers ==> k in b'.customers
    ensures SessionsOk(steps', kept, bound', collected)
  {
    var b, b' := Play(Empty(), steps).books, Play(Empty(), steps').books;
    forall i: nat ensures SeatedAt(steps', i) && LastingAt(steps', i) {
      assert SeatedAt(steps, i) && LastingAt(steps, i);
      assert i < |steps| ==> steps'[..i] == steps[..i] && steps'[i] == steps[i];
    }
    forall c | 0 <= c < |kept| ensures KeptOk(b', kept, c, bound', collected) {
      assert KeptOk(b, kept, c, bound, collected);
    }
    forall x ensures IdFree(b', bound', x) {
      assert IdFree(b, bound, x);
    }
  }

  lemma SeatedMore(steps: Script, step: Step)
    requires Seated(steps) && Lasting(steps) && SeatedStep(steps, step) && LastingStep(steps, step)
    ensures Seated(steps + [step]) && Lasting(steps + [step])
  {
    var more := steps + [step];
    forall i: nat ensures SeatedAt(more, i) && LastingAt(more, i) {
      assert SeatedAt(steps, i) && LastingAt(steps, i);
      assert i < |steps| ==> more[..i] == steps[..i] && more[i] == steps[i];
      assert i == |steps| ==> more[..i] == steps;
    }
  }

  // A step that adds or updates one session, in the script and in the books that result.
  predicate PutSession(b: Books, b': Books, s: Session) {
    b' == b.(sessions := b.sessions[Int(s.id) := SessionRow(s)])
  }

  // A new session under the next id: it can be added, for a visitor or for a known customer.
  lemma AddedSession(steps: Script, s: Session, kept: seq<Option<Session>>, bound: int, collected: int)
    requires Play(Empty(), steps).error.None? && SessionsOk(steps, kept, bound, collected)
    requires s.id == bound && KnowsCustomer(Play(Empty(), steps).books, s)
    requires s.expiresOn >= Play(Empty(), steps).books.day + 3
    ensures var b := Play(Empty(), steps).books;
            PlainStep(b, AddSession(s)).error.None? && PutSession(b, PlainStep(b, AddSession(s)).books, s)
    ensures SessionsOk(steps + [AddSession(s)], kept, bound + 1, collected)
  {
    var b := Play(Empty(), steps).books;
    assert IdFree(b, bound, bound);
    SeatedMore(steps, AddSession(s));
    PlayOne(steps, AddSession(s));
    var b', next := PlainStep(b, AddSession(s)).books, bound + 1;
    forall c | 0 <= c < |kept| ensures KeptOk(b', kept, c, next, collected) {
      assert KeptOk(b, kept, c, bound, collected);
    }
    forall x ensures IdFree(b', next, x) {
      assert IdFree(b, bound, x);
    }
  }

  // The new session is remembered for its customer.
  lemma RememberedSession(steps: Script, s: Session, c: nat, kept: seq<Option<Session>>, bound: int, collected: int)
    requires Play(Empty(), steps).error.None? && SessionsOk(steps, kept, bound, collected) && c < |kept|
    requires s.id == bound && s.customerId == Some(c + 1) && KnowsCustomer(Play(Empty(), steps).books, s)
    requires s.expiresOn >= Play(Empty(), steps).books.day + 3
    ensures SessionsOk(steps + [AddSession(s)], kept[c := Some(s)], bound + 1, collected)
  {
    AddedSession(steps, s, kept, bound, collected);
    PlayOne(steps, AddSession(s));
    var b' := Play(Empty(), steps + [AddSession(s)]).books;
    var kept', next := kept[c := Some(s)], bound + 1;
    forall e | 0 <= e < |kept'| ensures KeptOk(b', kept', e, next, collected) {
      assert KeptOk(b', kept, e, next, collected);
    }
    forall e | 0 <= e < |kept| && kept[e].Some? ensures kept[e].value.id < bound {
      assert KeptOk(Play(Empty(), steps).books, kept, e, bound, collected);
    }
  }

  // A session that has not expired by the day of the login has never been collected: it can be extended.
  lemma ExtendedSession(steps: Script, c: nat, until: int, kept: seq<Option<Session>>, bound: int, collected: int)
    requires Play(Empty(), steps).error.None? && SessionsOk(steps, kept, bound, collected)
    requires c < |kept| && kept[c].Some? && kept[c].value.expiresOn > collected && until > collected
    requires until >= Play(Empty(), steps).books.day + 3
    ensures var s := kept[c].value.(expiresOn := until);
            var b := Play(Empty(), steps).books;
            && PlainStep(b, UpdateSession(s)).error.None? && PutSession(b, PlainStep(b, UpdateSession(s)).books, s)
            && SessionsOk(steps + [UpdateSession(s)], kept[c := Some(s)], bound, collected)
  {
    var s := kept[c].value.(expiresOn := until);
    var b := Play(Empty(), steps).books;
    assert KeptOk(b, kept, c, bound, collected);
    SeatedMore(steps, UpdateSession(s));
    PlayOne(steps, UpdateSession(s));
    var b' := PlainStep(b, UpdateSession(s)).books;
    var kept' := kept[c := Some(s)];
    forall e | 0 <= e < |kept'| ensures KeptOk(b', kept', e, bound, collected) {
      assert KeptOk(b, kept, e, bound, collected);
    }
    forall x ensures IdFree(b', bound, x) {
      assert IdFree(b, bound, x);
    }
  }

  // Collecting on a later day.
  lemma CollectedSessions(steps: Script, kept: seq<Option<Session>>, bound: int, collected: int)
    requires Play(Empty(), steps).error.None? && SessionsOk(steps, kept, bound, collected)
    requires collected <= Play(Empty(), steps).books.day
    ensures SessionsOk(steps + [CollectSessions], kept, bound, Play(Empty(), steps).books.day)
  {
    var b := Play(Empty(), steps).books;
    SeatedMore(steps, CollectSessions);
    PlayOne(steps, CollectSessions);
    var b' := PlainStep(b, CollectSessions).books;
    forall c | 0 <= c < |kept| ensures KeptOk(b', kept, c, bound, b.day) {
      assert KeptOk(b, kept, c, bound, collected);
    }
    forall x ensures IdFree(b', bound, x) {
      assert IdFree(b, bound, x);
    }
  }
}
