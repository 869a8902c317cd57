/**
 * What an ExpectedAdminEvent holds, how its operation-type and error setters
 * interact, and the ordered series of checks that decides whether an actual
 * admin event meets it.
 */
module Expectations {
  import opened Wrappers
  import opened Events
  import opened AuthDefaults
  import opened Representations

  /** The three fields of an ExpectedAdminEvent. */
  datatype Expectation = Expectation(
    expected: AdminEvent,                 // realm id, operation type, error, auth details
    resourcePath: Option<PathMatcher>,
    expectedRep: Option<Properties>)      // the representation template

  /** A new ExpectedAdminEvent: blank expected event, no matcher, no template. */
  function Initial(): Expectation {
    Expectation(BlankEvent, None, None)
  }

  // ---------------------------------------------------------------------------
  // The operation type and the error

  predicate EndsWith(s: string, suffix: string) {
    |suffix| <= |s| && s[|s| - |suffix|..] == suffix
  }

  /** updateOperationTypeIfError: appends "_ERROR" when both an error and an operation type are set. */
  function WithErrorSuffix(e: AdminEvent): (r: AdminEvent)
    ensures e.error.Some? && e.operationType.Some? ==> r.operationType == Some(e.operationType.value + "_ERROR")
    ensures e.error.None? || e.operationType.None? ==> r == e
    ensures r == e.(operationType := r.operationType)
  {
    if e.error.Some? && e.operationType.Some? then
      e.(operationType := Some(e.operationType.value + "_ERROR"))
    else
      e
  }

  /** operationType(op): store the constant's name, then apply the error suffix rule. */
  function SetOperationType(e: AdminEvent, op: OperationType): (r: AdminEvent)
    ensures r.operationType == Some(if e.error.Some? then op.Name() + "_ERROR" else op.Name())
    ensures r == e.(operationType := r.operationType)
  {
    WithErrorSuffix(e.(operationType := Some(op.Name())))
  }

  /** error(err): store the error, then apply the error suffix rule to the stored operation type. */
  function SetError(e: AdminEvent, error: Option<string>): (r: AdminEvent)
    ensures r.error == error
    ensures error.Some? && e.operationType.Some? ==> r.operationType == Some(e.operationType.value + "_ERROR")
    ensures error.None? || e.operationType.None? ==> r.operationType == e.operationType
    ensures r == e.(error := error, operationType := r.operationType)
  {
    WithErrorSuffix(e.(error := error))
  }

  /** What the setters keep: an expectation with an error and an operation type expects an "_ERROR" operation. */
  predicate SuffixedWhenErroneous(e: AdminEvent) {
    e.error.Some? && e.operationType.Some? ==> EndsWith(e.operationType.value, "_ERROR")
  }

  lemma OperationTypeKeepsSuffix(e: AdminEvent, op: OperationType)
    requires SuffixedWhenErroneous(e)
    ensures SuffixedWhenErroneous(SetOperationType(e, op))
  {
    var t := SetOperationType(e, op);
    if e.error.Some? {
      assert t.operationType.value[|t.operationType.value| - 6..] == "_ERROR";
    }
  }

  lemma ErrorKeepsSuffix(e: AdminEvent, error: Option<string>)
    requires SuffixedWhenErroneous(e)
    ensures SuffixedWhenErroneous(SetError(e, error))
  {
    var r := SetError(e, error);
    if error.Some? && e.operationType.Some? {
      assert r.operationType.value[|r.operationType.value| - 6..] == "_ERROR";
    }
  }

  /** With no error set beforehand, the order of operationType(op) and error(err) does not matter. */
  lemma SetterOrderIrrelevant(e: AdminEvent, op: OperationType, err: string)
    requires e.error.None?
    ensures SetError(SetOperationType(e, op), Some(err)) == SetOperationType(SetError(e, Some(err)), op)
    ensures SetError(SetOperationType(e, op), Some(err)).operationType == Some(op.Name() + "_ERROR")
  {
  }

  /** With an error already set, operationType(op).error(err) suffixes twice and error(err).operationType(op) once. */
  lemma SetterOrderMattersAfterError(e: AdminEvent, op: OperationType, err: string)
    requires e.error.Some?
    ensures SetError(SetOperationType(e, op), Some(err)).operationType == Some(op.Name() + "_ERROR_ERROR")
    ensures SetOperationType(SetError(e, Some(err)), op).operationType == Some(op.Name() + "_ERROR")
    ensures SetError(SetOperationType(e, op), Some(err)) != SetOperationType(SetError(e, Some(err)), op)
  {
    assert op.Name() + "_ERROR" + "_ERROR" == op.Name() + "_ERROR_ERROR";
  }

  /** The rule is not idempotent: a second error(..) call appends the suffix again. */
  lemma RepeatedErrorSuffixesTwice(e: AdminEvent, first: string, second: string)
    requires e.operationType.Some?
    ensures SetError(SetError(e, Some(first)), Some(second)).operationType
            == Some(e.operationType.value + "_ERROR" + "_ERROR")
  {
  }

  /** The scenario {operationType: CREATE, error: "some-error"} expects "CREATE_ERROR". */
  lemma CreateWithErrorExample()
    ensures SetError(SetOperationType(BlankEvent, Create), Some("some-error")).operationType == Some("CREATE_ERROR")
  {
    assert Create.Name() + "_ERROR" == "CREATE_ERROR";
  }

  // ---------------------------------------------------------------------------
  // The checks of assertEvent(actual)

  /**
   * The auth details actual events are compared with: the expectation's own, or `defaults`,
   * which stands for what defaultAuthDetails() derives from the admin token.
   */
  function EffectiveAuthDetails(s: Expectation, defaults: AuthDetails): AuthDetails {
    s.expected.authDetails.GetOr(defaults)
  }

  /** Whether the check that reports `f` fails on `actual` (false for failures that are no field check). */
  predicate Detects(f: Failure, s: Expectation, defaults: AuthDetails, actual: AdminEvent) {
    match f
    case RealmIdMismatch => s.expected.realmId != actual.realmId
    case OperationTypeMismatch => s.expected.operationType != actual.operationType
    case ResourcePathUnset => s.resourcePath.None?
    case ResourcePathMismatch => s.resourcePath.Some? && !Matches(s.resourcePath.value, actual.resourcePath)
    case ErrorMismatch => s.expected.error != actual.error
    case AuthDetailsMissing => actual.authDetails.None?
    case AuthRealmIdMismatch => AuthCheckFails(f, EffectiveAuthDetails(s, defaults), actual)
    case AuthUserIdMismatch => AuthCheckFails(f, EffectiveAuthDetails(s, defaults), actual)
    case AuthClientIdMismatch => AuthCheckFails(f, EffectiveAuthDetails(s, defaults), actual)
    case _ => false
  }

  /** Whether the auth-details check that reports `f` fails when `auth` is expected. */
  predicate AuthCheckFails(f: Failure, auth: AuthDetails, actual: AdminEvent) {
    match f
    case AuthRealmIdMismatch => actual.authDetails.Some? && auth.realmId != actual.authDetails.value.realmId
    case AuthUserIdMismatch => actual.authDetails.Some? && auth.userId != actual.authDetails.value.userId
    case AuthClientIdMismatch =>
      actual.authDetails.Some? && auth.clientId.Some? && auth.clientId != actual.authDetails.value.clientId
    case _ => false
  }

  /** The field checks in the order the source performs them. */
  const FieldChecks: seq<Failure> := [
    RealmIdMismatch, OperationTypeMismatch, ResourcePathUnset, ResourcePathMismatch, ErrorMismatch,
    AuthDetailsMissing, AuthRealmIdMismatch, AuthUserIdMismatch, AuthClientIdMismatch]

  /** The position of the first check in `checks` that fails, or |checks| when none does. */
  function FirstFailingCheck(checks: seq<Failure>, s: Expectation, defaults: AuthDetails, actual: AdminEvent): (i: nat)
    ensures i <= |checks|
    ensures forall j :: 0 <= j < i ==> !Detects(checks[j], s, defaults, actual)
    ensures i < |checks| ==> Detects(checks[i], s, defaults, actual)
  {
    if checks == [] then 0
    else if Detects(checks[0], s, defaults, actual) then 0
    else 1 + FirstFailingCheck(checks[1..], s, defaults, actual)
  }

  /** A check that fails after every earlier one held is the one reported first. */
  lemma FirstFailingFieldCheck(s: Expectation, defaults: AuthDetails, actual: AdminEvent, k: nat)
    requires k <= |FieldChecks|
    requires forall j | 0 <= j < k :: !Detects(FieldChecks[j], s, defaults, actual)
    requires k < |FieldChecks| ==> Detects(FieldChecks[k], s, defaults, actual)
    ensures FirstFailingCheck(FieldChecks, s, defaults, actual) == k
  {
  }

  /** One more check held: the checks up to and including position k all hold. */
  lemma NextFieldCheckHolds(s: Expectation, defaults: AuthDetails, actual: AdminEvent, k: nat)
    requires k < |FieldChecks|
    requires forall j | 0 <= j < k :: !Detects(FieldChecks[j], s, defaults, actual)
    requires !Detects(FieldChecks[k], s, defaults, actual)
    ensures forall j | 0 <= j < k + 1 :: !Detects(FieldChecks[j], s, defaults, actual)
  {
  }

  /** The failure the field checks report first, written out in the order of the source. */
  function FirstFailure(s: Expectation, defaults: AuthDetails, actual: AdminEvent): (failure: Option<Failure>)
    ensures failure.Some? ==> failure.value in FieldChecks && Detects(failure.value, s, defaults, actual)
    ensures failure.None? <==> FieldsAgree(s, defaults, actual)
  {
    if Detects(RealmIdMismatch, s, defaults, actual) then Some(RealmIdMismatch)
    else if Detects(OperationTypeMismatch, s, defaults, actual) then Some(OperationTypeMismatch)
    else if Detects(ResourcePathUnset, s, defaults, actual) then Some(ResourcePathUnset)
    else if Detects(ResourcePathMismatch, s, defaults, actual) then Some(ResourcePathMismatch)
    else if Detects(ErrorMismatch, s, defaults, actual) then Some(ErrorMismatch)
    else if Detects(AuthDetailsMissing, s, defaults, actual) then Some(AuthDetailsMissing)
    else if Detects(AuthRealmIdMismatch, s, defaults, actual) then Some(AuthRealmIdMismatch)
    else if Detects(AuthUserIdMismatch, s, defaults, actual) then Some(AuthUserIdMismatch)
    else if Detects(AuthClientIdMismatch, s, defaults, actual) then Some(AuthClientIdMismatch)
    else None
  }

  /** The written-out chain reports exactly the first failing check of FieldChecks, or none. */
  lemma FirstFailureIsFirstFailingCheck(s: Expectation, defaults: AuthDetails, actual: AdminEvent)
    ensures var i := FirstFailingCheck(FieldChecks, s, defaults, actual);
            FirstFailure(s, defaults, actual) == if i < |FieldChecks| then Some(FieldChecks[i]) else None
  {
    if Detects(RealmIdMismatch, s, defaults, actual) { FirstFailingFieldCheck(s, defaults, actual, 0); return; }
    NextFieldCheckHolds(s, defaults, actual, 0);
    if Detects(OperationTypeMismatch, s, defaults, actual) { FirstFailingFieldCheck(s, defaults, actual, 1); return; }
    NextFieldCheckHolds(s, defaults, actual, 1);
    if Detects(ResourcePathUnset, s, defaults, actual) { FirstFailingFieldCheck(s, defaults, actual, 2); return; }
    NextFieldCheckHolds(s, defaults, actual, 2);
    if Detects(ResourcePathMismatch, s, defaults, actual) { FirstFailingFieldCheck(s, defaults, actual, 3); return; }
    NextFieldCheckHolds(s, defaults, actual, 3);
    if Detects(ErrorMismatch, s, defaults, actual) { FirstFailingFieldCheck(s, defaults, actual, 4); return; }
    NextFieldCheckHolds(s, defaults, actual, 4);
    if Detects(AuthDetailsMissing, s, defaults, actual) { FirstFailingFieldCheck(s, defaults, actual, 5); return; }
    NextFieldCheckHolds(s, defaults, actual, 5);
    if Detects(AuthRealmIdMismatch, s, defaults, actual) { FirstFailingFieldCheck(s, defaults, actual, 6); return; }
    NextFieldCheckHolds(s, defaults, actual, 6);
    if Detects(AuthUserIdMismatch, s, defaults, actual) { FirstFailingFieldCheck(s, defaults, actual, 7); return; }
    NextFieldCheckHolds(s, defaults, actual, 7);
    if Detects(AuthClientIdMismatch, s, defaults, actual) { FirstFailingFieldCheck(s, defaults, actual, 8); return; }
    NextFieldCheckHolds(s, defaults, actual, 8);
    FirstFailingFieldCheck(s, defaults, actual, 9);
  }

  /** The representation check: no template, or a present, decodable representation that matches it. */
  predicate RepresentationAccepted(s: Expectation, decode: string -> Option<Properties>, actual: AdminEvent) {
    s.expectedRep.Some? ==>
      && actual.representation.Some?
      && decode(actual.representation.value).Some?
      && PartialMatch(s.expectedRep.value, decode(actual.representation.value).value)
  }

  /** Every field check holds, each named in the order the source performs them. */
  predicate FieldsAgree(s: Expectation, defaults: AuthDetails, actual: AdminEvent) {
    && !Detects(RealmIdMismatch, s, defaults, actual)
    && !Detects(OperationTypeMismatch, s, defaults, actual)
    && !Detects(ResourcePathUnset, s, defaults, actual)
    && !Detects(ResourcePathMismatch, s, defaults, actual)
    && !Detects(ErrorMismatch, s, defaults, actual)
    && !Detects(AuthDetailsMissing, s, defaults, actual)
    && !Detects(AuthRealmIdMismatch, s, defaults, actual)
    && !Detects(AuthUserIdMismatch, s, defaults, actual)
    && !Detects(AuthClientIdMismatch, s, defaults, actual)
  }

  /** No check of FieldChecks fails exactly when the fields agree. */
  lemma FieldsAgreeIffNoCheckFails(s: Expectation, defaults: AuthDetails, actual: AdminEvent)
    ensures FieldsAgree(s, defaults, actual) <==>
            forall i | 0 <= i < |FieldChecks| :: !Detects(FieldChecks[i], s, defaults, actual)
  {
    if FieldsAgree(s, defaults, actual) {
      forall i | 0 <= i < |FieldChecks|
        ensures !Detects(FieldChecks[i], s, defaults, actual)
      {
        assert FieldChecks[i] in FieldChecks[..i + 1];
      }
    } else {
      assert exists i | 0 <= i < |FieldChecks| :: Detects(FieldChecks[i], s, defaults, actual) by {
        assert || Detects(FieldChecks[0], s, defaults, actual) || Detects(FieldChecks[1], s, defaults, actual)
               || Detects(FieldChecks[2], s, defaults, actual) || Detects(FieldChecks[3], s, defaults, actual)
               || Detects(FieldChecks[4], s, defaults, actual) || Detects(FieldChecks[5], s, defaults, actual)
               || Detects(FieldChecks[6], s, defaults, actual) || Detects(FieldChecks[7], s, defaults, actual)
               || Detects(FieldChecks[8], s, defaults, actual);
      }
    }
  }

  /** The expectation accepts `actual`: every field check and the representation check hold. */
  predicate Accepts(s: Expectation, defaults: AuthDetails, decode: string -> Option<Properties>, actual: AdminEvent) {
    FieldsAgree(s, defaults, actual) && RepresentationAccepted(s, decode, actual)
  }

  /**
   * The results assertEvent(actual) may give: the first failing field check, then the
   * representation failures in their order, and otherwise `actual` itself.
   */
  ghost predicate IsVerdict(s: Expectation, defaults: AuthDetails, decode: string -> Option<Properties>,
                            actual: AdminEvent, r: Outcome)
  {
    var i := FirstFailingCheck(FieldChecks, s, defaults, actual);
    if i < |FieldChecks| then r == Failed(FieldChecks[i])
    else if s.expectedRep.None? then r == Passed(actual)
    else if actual.representation.None? then r == Failed(RepresentationMissing)
    else match decode(actual.representation.value)
      case None => r == Failed(RepresentationUndecodable)
      case Some(rep) =>
        if PartialMatch(s.expectedRep.value, rep) then r == Passed(actual)
        else r.Failed? && r.failure.PropertyMismatch? && Disagrees(s.expectedRep.value, rep, r.failure.name)
  }

  /** An assertion passes exactly when the expectation accepts the event, and then returns it unchanged. */
  lemma VerdictPassesIffAccepted(s: Expectation, defaults: AuthDetails, decode: string -> Option<Properties>,
                                 actual: AdminEvent, r: Outcome)
    requires IsVerdict(s, defaults, decode, actual, r)
    ensures r.Passed? <==> Accepts(s, defaults, decode, actual)
    ensures r.Passed? ==> r.event == actual
  {
    FieldsAgreeIffNoCheckFails(s, defaults, actual);
  }

  /** An accepted event carries the expected realm and user, and the expected client when one is set. */
  lemma AcceptedAuthDetails(s: Expectation, defaults: AuthDetails, decode: string -> Option<Properties>, actual: AdminEvent)
    requires Accepts(s, defaults, decode, actual)
    ensures actual.authDetails.Some?
    ensures actual.authDetails.value.realmId == EffectiveAuthDetails(s, defaults).realmId
    ensures actual.authDetails.value.userId == EffectiveAuthDetails(s, defaults).userId
    ensures EffectiveAuthDetails(s, defaults).clientId.Some? ==>
              actual.authDetails.value.clientId == EffectiveAuthDetails(s, defaults).clientId
  {
    assert FieldsAgree(s, defaults, actual);
    var auth := EffectiveAuthDetails(s, defaults);
    assert !AuthCheckFails(AuthRealmIdMismatch, auth, actual);
    assert !AuthCheckFails(AuthUserIdMismatch, auth, actual);
    assert !AuthCheckFails(AuthClientIdMismatch, auth, actual);
  }

  /** Without auth details of its own, an expectation wants the admin token's realm and subject. */
  lemma AcceptedDefaultAuthDetails(s: Expectation, token: TokenClaims, decode: string -> Option<Properties>,
                                   actual: AdminEvent)
    requires s.expected.authDetails.None?
    requires Accepts(s, DefaultAuthDetails(token), decode, actual)
    ensures actual.authDetails.Some?
    ensures actual.authDetails.value.realmId == Some(RealmIdOfIssuer(token.issuer))
    ensures actual.authDetails.value.userId == token.subject
  {
    AcceptedAuthDetails(s, DefaultAuthDetails(token), decode, actual);
  }

  /**
   * What the builder invariant means for assertEvent: an expectation with an error and an
   * operation type accepts only events that carry that error and an "_ERROR" operation type.
   */
  lemma AcceptedErroneousOperationType(s: Expectation, defaults: AuthDetails, decode: string -> Option<Properties>,
                                       actual: AdminEvent)
    requires SuffixedWhenErroneous(s.expected)
    requires s.expected.error.Some? && s.expected.operationType.Some?
    requires Accepts(s, defaults, decode, actual)
    ensures actual.error == s.expected.error
    ensures actual.operationType.Some? && EndsWith(actual.operationType.value, "_ERROR")
  {
    assert !Detects(OperationTypeMismatch, s, defaults, actual);
    assert !Detects(ErrorMismatch, s, defaults, actual);
  }

  /** A null expected client id accepts any actual client id. */
  lemma UnsetClientIdAcceptsAnyClient(s: Expectation, defaults: AuthDetails, decode: string -> Option<Properties>,
                                      actual: AdminEvent, clientId: Option<string>)
    requires EffectiveAuthDetails(s, defaults).clientId.None?
    requires actual.authDetails.Some?
    ensures Accepts(s, defaults, decode, actual) <==>
            Accepts(s, defaults, decode, actual.(authDetails := Some(actual.authDetails.value.(clientId := clientId))))
  {
    var other := actual.(authDetails := Some(actual.authDetails.value.(clientId := clientId)));
    var auth := EffectiveAuthDetails(s, defaults);
    AuthChecksIgnoreClientId(auth, actual, clientId);
    assert FieldsAgree(s, defaults, actual) <==> FieldsAgree(s, defaults, other);
    assert RepresentationAccepted(s, decode, actual) <==> RepresentationAccepted(s, decode, other);
  }

  /** With no expected client id, no auth-details check looks at the actual client id. */
  lemma AuthChecksIgnoreClientId(auth: AuthDetails, actual: AdminEvent, clientId: Option<string>)
    requires auth.clientId.None?
    requires actual.authDetails.Some?
    ensures var other := actual.(authDetails := Some(actual.authDetails.value.(clientId := clientId)));
            && AuthCheckFails(AuthRealmIdMismatch, auth, actual) == AuthCheckFails(AuthRealmIdMismatch, auth, other)
            && AuthCheckFails(AuthUserIdMismatch, auth, actual) == AuthCheckFails(AuthUserIdMismatch, auth, other)
            && !AuthCheckFails(AuthClientIdMismatch, auth, actual) && !AuthCheckFails(AuthClientIdMismatch, auth, other)
  {
  }

  /** With no resource-path matcher (a null one included), no event is accepted. */
  lemma NoMatcherAcceptsNothing(s: Expectation, defaults: AuthDetails, decode: string -> Option<Properties>,
                                actual: AdminEvent)
    requires s.resourcePath.None?
    ensures !Accepts(s, defaults, decode, actual)
  {
    assert Detects(ResourcePathUnset, s, defaults, actual);
  }

  /** Without a template, the representation of the actual event is never looked at. */
  lemma NoTemplateIgnoresRepresentation(s: Expectation, defaults: AuthDetails, decode: string -> Option<Properties>,
                                        actual: AdminEvent, raw: Option<string>)
    requires s.expectedRep.None?
    ensures Accepts(s, defaults, decode, actual) <==> Accepts(s, defaults, decode, actual.(representation := raw))
  {
  }

  /** With a template, an event without a representation is rejected. */
  lemma TemplateNeedsRepresentation(s: Expectation, defaults: AuthDetails, decode: string -> Option<Properties>,
                                    actual: AdminEvent)
    requires s.expectedRep.Some? && actual.representation.None?
    ensures !Accepts(s, defaults, decode, actual)
  {
  }
}
