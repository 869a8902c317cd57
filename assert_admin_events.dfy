/**
 * AssertAdminEvents and its inner builder ExpectedAdminEvent. The remote admin-event
 * queue of the server under test is the field `queue`, oldest event first.
 */
module AdminEventAssertions {
  import opened Wrappers
  import opened Events
  import opened AuthDefaults
  import opened Representations
  import opened Expectations

  /** The expectation the convenience assertEvent(realmId, operationType, resourcePath, representation) builds. */
  function Built(realmId: Option<string>, op: OperationType, path: Option<PathMatcher>, rep: Option<Properties>): (s: Expectation)
    ensures s.expected.realmId == realmId && s.expected.operationType == Some(op.Name())
    ensures s.expected.error.None? && s.expected.authDetails.None?
    ensures s.resourcePath == path && s.expectedRep == rep
  {
    Expectation(SetOperationType(BlankEvent.(realmId := realmId), op), path, rep)
  }

  class AssertAdminEvents {
    var queue: seq<AdminEvent>

    constructor (pending: seq<AdminEvent>)
      ensures queue == pending
    {
      queue := pending;
    }

    /** fetchNextEvent: the server hands out its oldest event, or null when it has none. */
    method FetchNextEvent() returns (event: Option<AdminEvent>)
      modifies this
      ensures old(queue) == [] ==> event == None && queue == []
      ensures old(queue) != [] ==> event == Some(old(queue)[0]) && queue == old(queue)[1..]
    {
      if queue == [] {
        event := None;
      } else {
        event := Some(queue[0]);
        queue := queue[1..];
      }
    }

    /** poll: the next event, which must exist. */
    method Poll() returns (r: Outcome)
      modifies this
      ensures old(queue) == [] ==> r == Failed(EventMissing) && queue == []
      ensures old(queue) != [] ==> r == Passed(old(queue)[0]) && queue == old(queue)[1..]
    {
      var event := FetchNextEvent();
      if event.None? {
        return Failed(EventMissing);
      }
      return Passed(event.value);
    }

    /** assertEmpty: fetches one event, and fails naming it if there was one. */
    method AssertEmpty() returns (v: Verdict)
      modifies this
      ensures v.Pass? <==> old(queue) == []
      ensures old(queue) == [] ==> queue == []
      ensures old(queue) != [] ==> v == Fail(UnexpectedEvent(old(queue)[0])) && queue == old(queue)[1..]
    {
      var event := FetchNextEvent();
      if event.Some? {
        return Fail(UnexpectedEvent(event.value));
      }
      return Pass;
    }

    /** clear: the server empties its queue and answers `status`; anything but 200 fails. */
    method Clear(status: int) returns (v: Verdict)
      modifies this
      ensures v.Pass? <==> status == 200
      ensures v.Fail? ==> v.failure == ClearRejected(status)
      ensures status == 200 ==> queue == []
    {
      if status != 200 {
        return Fail(ClearRejected(status));
      }
      queue := [];
      return Pass;
    }

    /** expect: a new, empty expectation bound to this queue. */
    method Expect() returns (e: ExpectedAdminEvent)
      ensures fresh(e) && e.owner == this
      ensures e.Valid() && e.State() == Initial()
    {
      e := new ExpectedAdminEvent(this);
    }

    /**
     * assertEvent(realmId, operationType, resourcePath, representation): builds the
     * expectation with those four setters and asserts it against the next event.
     */
    method AssertEvent(realmId: Option<string>, op: OperationType, path: Option<PathMatcher>, rep: Option<Properties>,
                       token: TokenClaims, decode: string -> Option<Properties>) returns (r: Outcome)
      modifies this
      ensures old(queue) == [] ==> r == Failed(EventMissing) && queue == []
      ensures old(queue) != [] ==> queue == old(queue)[1..]
      ensures old(queue) != [] ==> IsVerdict(Built(realmId, op, path, rep), DefaultAuthDetails(token), decode, old(queue)[0], r)
    {
      var e := Expect();
      e := e.RealmId(realmId);
      e := e.OperationType(op);
      e := e.ResourcePathMatching(path);
      e := e.Representation(rep);
      r := e.AssertNextEvent(token, decode);
    }
  }

  class ExpectedAdminEvent {
    const owner: AssertAdminEvents
    var expected: AdminEvent
    var resourcePath: Option<PathMatcher>
    var expectedRep: Option<Properties>

    function State(): Expectation
      reads this
    {
      Expectation(expected, resourcePath, expectedRep)
    }

    /** The builder keeps the error suffix on the operation type whenever an error is expected. */
    predicate Valid()
      reads this
    {
      SuffixedWhenErroneous(expected)
    }

    constructor (owner: AssertAdminEvents)
      ensures this.owner == owner
      ensures Valid() && State() == Initial()
    {
      this.owner := owner;
      expected := BlankEvent;
      resourcePath := None;
      expectedRep := None;
    }

    method RealmId(realmId: Option<string>) returns (self: ExpectedAdminEvent)
      requires Valid()
      modifies this
      ensures self == this && Valid()
      ensures expected == old(expected).(realmId := realmId)
      ensures resourcePath == old(resourcePath) && expectedRep == old(expectedRep)
    {
      expected := expected.(realmId := realmId);
      return this;
    }

    method Realm(realm: Events.Realm) returns (self: ExpectedAdminEvent)
      requires Valid()
      modifies this
      ensures self == this && Valid()
      ensures expected == old(expected).(realmId := realm.id)
      ensures resourcePath == old(resourcePath) && expectedRep == old(expectedRep)
    {
      self := RealmId(realm.id);
    }

    method OperationType(op: Events.OperationType) returns (self: ExpectedAdminEvent)
      requires Valid()
      modifies this
      ensures self == this && Valid()
      ensures expected == SetOperationType(old(expected), op)
      ensures resourcePath == old(resourcePath) && expectedRep == old(expectedRep)
    {
      expected := expected.(operationType := Some(op.Name()));
      UpdateOperationTypeIfError();
      OperationTypeKeepsSuffix(old(expected), op);
      return this;
    }

    method ResourcePath(path: Option<string>) returns (self: ExpectedAdminEvent)
      requires Valid()
      modifies this
      ensures self == this && Valid()
      ensures resourcePath == Some(EqualTo(path))
      ensures expected == old(expected) && expectedRep == old(expectedRep)
    {
      self := ResourcePathMatching(Some(EqualTo(path)));
    }

    method ResourcePathMatching(path: Option<PathMatcher>) returns (self: ExpectedAdminEvent)
      requires Valid()
      modifies this
      ensures self == this && Valid()
      ensures resourcePath == path
      ensures expected == old(expected) && expectedRep == old(expectedRep)
    {
      resourcePath := path;
      return this;
    }

    method Error(error: Option<string>) returns (self: ExpectedAdminEvent)
      requires Valid()
      modifies this
      ensures self == this && Valid()
      ensures expected == SetError(old(expected), error)
      ensures resourcePath == old(resourcePath) && expectedRep == old(expectedRep)
    {
      expected := expected.(error := error);
      UpdateOperationTypeIfError();
      ErrorKeepsSuffix(old(expected), error);
      return this;
    }

    /** updateOperationTypeIfError, rewriting the stored operation type in place. */
    method UpdateOperationTypeIfError()
      modifies this
      ensures expected == WithErrorSuffix(old(expected))
      ensures resourcePath == old(resourcePath) && expectedRep == old(expectedRep)
    {
      if expected.error.Some? && expected.operationType.Some? {
        expected := expected.(operationType := Some(expected.operationType.value + "_ERROR"));
      }
    }

    method AuthDetails(realmId: Option<string>, clientId: Option<string>, userId: Option<string>)
      returns (self: ExpectedAdminEvent)
      requires Valid()
      modifies this
      ensures self == this && Valid()
      ensures expected == old(expected).(authDetails := Some(Events.AuthDetails(realmId, clientId, userId)))
      ensures resourcePath == old(resourcePath) && expectedRep == old(expectedRep)
    {
      var auth := Events.AuthDetails(realmId, clientId, userId);
      expected := expected.(authDetails := Some(auth));
      return this;
    }

    method Representation(rep: Option<Properties>) returns (self: ExpectedAdminEvent)
      requires Valid()
      modifies this
      ensures self == this && Valid()
      ensures expectedRep == rep
      ensures expected == old(expected) && resourcePath == old(resourcePath)
    {
      expectedRep := rep;
      return this;
    }

    /** assertEvent(): polls the next event and asserts this expectation against it. */
    method AssertNextEvent(token: TokenClaims, decode: string -> Option<Properties>) returns (r: Outcome)
      modifies owner
      ensures old(owner.queue) == [] ==> r == Failed(EventMissing) && owner.queue == []
      ensures old(owner.queue) != [] ==> owner.queue == old(owner.queue)[1..]
      ensures old(owner.queue) != [] ==> IsVerdict(State(), DefaultAuthDetails(token), decode, old(owner.queue)[0], r)
    {
      var polled := owner.Poll();
      if polled.Failed? {
        return polled;
      }
      r := AssertEvent(polled.event, token, decode);
    }

    /**
     * The field checks of assertEvent(actual), in the source's order: realm id, operation
     * type, resource path, error, then the auth details (`defaults`, the ones
     * defaultAuthDetails() derives, when the expectation sets none). The result is the failure of the first that fails.
     */
    method CheckFields(actual: AdminEvent, defaults: AuthDetails) returns (failure: Option<Failure>)
      ensures var i := FirstFailingCheck(FieldChecks, State(), defaults, actual);
              failure == if i < |FieldChecks| then Some(FieldChecks[i]) else None
      ensures failure == FirstFailure(State(), defaults, actual)
    {
      var expectedAuth := if expected.authDetails.Some? then expected.authDetails.value else defaults;
      if expected.realmId != actual.realmId {
        failure := Some(RealmIdMismatch);
      } else if expected.operationType != actual.operationType {
        failure := Some(OperationTypeMismatch);
      } else if resourcePath.None? {
        failure := Some(ResourcePathUnset);
      } else if !Matches(resourcePath.value, actual.resourcePath) {
        failure := Some(ResourcePathMismatch);
      } else if expected.error != actual.error {
        failure := Some(ErrorMismatch);
      } else if actual.authDetails.None? {
        failure := Some(AuthDetailsMissing);
      } else if expectedAuth.realmId != actual.authDetails.value.realmId {
        failure := Some(AuthRealmIdMismatch);
      } else if expectedAuth.userId != actual.authDetails.value.userId {
        failure := Some(AuthUserIdMismatch);
      } else if expectedAuth.clientId.Some? && expectedAuth.clientId != actual.authDetails.value.clientId {
        failure := Some(AuthClientIdMismatch);
      } else {
        failure := None;
      }
      assert failure == FirstFailure(State(), defaults, actual);
      FirstFailureIsFirstFailingCheck(State(), defaults, actual);
    }

    /**
     * assertEvent(actual): `token` is the admin client's access token, from which
     * defaultAuthDetails() derives the auth details an expectation without its own is
     * compared with; `decode` reads a raw representation into the template's class
     * (None when it is malformed).
     */
    method AssertEvent(actual: AdminEvent, token: TokenClaims, decode: string -> Option<Properties>)
      returns (r: Outcome)
      ensures IsVerdict(State(), DefaultAuthDetails(token), decode, actual, r)
      ensures Valid() && r.Passed? && expected.error.Some? && expected.operationType.Some? ==>
                && r.event.error == expected.error
                && r.event.operationType.Some? && EndsWith(r.event.operationType.value, "_ERROR")
    {
      r := AssertEventAgainst(actual, DefaultAuthDetails(token), decode);
    }

    /**
     * The checks of assertEvent(actual) once the default auth details are known: the
     * field checks in order, then the representation template.
     */
    method AssertEventAgainst(actual: AdminEvent, defaults: AuthDetails, decode: string -> Option<Properties>)
      returns (r: Outcome)
      ensures IsVerdict(State(), defaults, decode, actual, r)
      ensures Valid() && r.Passed? && expected.error.Some? && expected.operationType.Some? ==>
                && r.event.error == expected.error
                && r.event.operationType.Some? && EndsWith(r.event.operationType.value, "_ERROR")
    {
      var failure := CheckFields(actual, defaults);
      if failure.Some? {
        return Failed(failure.value);
      }
      if expectedRep.Some? {
        if actual.representation.None? {
          return Failed(RepresentationMissing);
        }
        var actualRep := decode(actual.representation.value);
        if actualRep.None? {
          return Failed(RepresentationUndecodable);
        }
        var mismatch := CompareRepresentation(expectedRep.value, actualRep.value);
        if mismatch.Some? {
          return Failed(PropertyMismatch(mismatch.value));
        }
      }
      r := Passed(actual);
      VerdictPassesIffAccepted(State(), defaults, decode, actual, r);
      if Valid() && expected.error.Some? && expected.operationType.Some? {
        AcceptedErroneousOperationType(State(), defaults, decode, actual);
      }
    }
  }
}
