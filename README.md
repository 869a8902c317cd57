# Admin-event assertions, modelled in Dafny

A model of `AssertAdminEvents`, the Keycloak test-suite helper that checks the admin events a server under test has emitted. It covers three parts:

- a fluent **expectation builder** (`ExpectedAdminEvent`). It stores an expected realm id, operation type, error and auth details, a resource-path matcher and a representation template.
- the **matcher** `assertEvent(actual)`. It runs an ordered series of field checks, then compares only the non-null getter properties of the template against the actual representation.
- the **default auth details**, taken from the admin client's access token: the realm is the issuer's last path segment, and the user is the token's subject.

The server's admin-event queue is the field `AssertAdminEvents.queue`, oldest event first. From it, `poll`, `assertEmpty`, `clear` and the convenience `assertEvent(..)` overloads get contracts that say how many events they consume and when they fail.

Modules:

- `Wrappers`: `Option`, standing for a Java reference that may be null.
- `Events`: the data model. It holds `AdminEvent`, `AuthDetails`, representation `Properties` (a map from method name to returned value), `OperationType`, `PathMatcher`, and the `Failure`/`Outcome`/`Verdict` results. An assertion error becomes a `Failed`/`Fail` value naming the check that failed.
- `AuthDefaults`: `defaultAuthDetails` as pure string functions of the token's issuer and subject.
- `Representations`: the partial structural comparison. It has the loop over the template's methods and the laws of partial matching.
- `Expectations`: the builder's state as a value and the rule that appends `"_ERROR"`. It also holds the ordered field checks and `IsVerdict`, which states every result `assertEvent(actual)` may give. These take the default auth details as a value, `defaults`. The class passes `DefaultAuthDetails(token)`, as `assertEvent(actual)` calls `defaultAuthDetails()` at line 190.
- `AdminEventAssertions`: the two classes, `AssertAdminEvents` and `ExpectedAdminEvent`. Their methods update fields in place as the Java does.

The error-suffix rule follows the code. Calling `error(..)` twice appends `"_ERROR"` twice (`Expectations.RepeatedErrorSuffixesTwice`). So does setting an operation type after an error and then calling `error(..)` again (`Expectations.SetterOrderMattersAfterError`). The rule is not idempotent: each non-null `error(..)` appends `"_ERROR"` again to a stored operation type, while `operationType(op)` stores `op` afresh and appends the suffix once when an error is set. What the code does keep is weaker, and the builder proves it as its `Valid()` invariant: whenever both an error and an operation type are expected, the operation type ends in `"_ERROR"`. As a consequence, `assertEvent` then accepts only events that carry that error and an operation type ending in `"_ERROR"` (`Expectations.AcceptedErroneousOperationType`).

## Model

| member | source | states |
|---|---|---|
| `Events.OperationType.Name` | testsuite/integration-arquillian/tests/base/src/test/java/org/keycloak/testsuite/util/AssertAdminEvents.java:136 | the stored operation type is the enum constant's non-empty name |
| `Events.Matches` | testsuite/integration-arquillian/tests/base/src/test/java/org/keycloak/testsuite/util/AssertAdminEvents.java:183 | a resource-path matcher is Hamcrest `equalTo` (equality with the nullable path) or an arbitrary predicate on the nullable path (definition) |
| `AuthDefaults.LastIndexOf` | testsuite/integration-arquillian/tests/base/src/test/java/org/keycloak/testsuite/util/AssertAdminEvents.java:235 | the result is -1 or an index holding the character, and no later index holds it |
| `AuthDefaults.RealmIdOfIssuer` | testsuite/integration-arquillian/tests/base/src/test/java/org/keycloak/testsuite/util/AssertAdminEvents.java:235 | the realm id is a suffix of the issuer with no '/', preceded by '/' unless it is the whole issuer; an issuer without '/' is its own realm id |
| `AuthDefaults.DefaultAuthDetails` | testsuite/integration-arquillian/tests/base/src/test/java/org/keycloak/testsuite/util/AssertAdminEvents.java:228-238 | the realm is the issuer's last segment, the user id is the token subject, the client id is null |
| `AuthDefaults.RealmIdIsLastSegment` | testsuite/integration-arquillian/tests/base/src/test/java/org/keycloak/testsuite/util/AssertAdminEvents.java:235 | for any issuer `prefix + "/" + realm` where realm has no '/', the derived realm id is exactly `realm` |
| `AuthDefaults.DefaultAuthDetailsExample` | testsuite/integration-arquillian/tests/base/src/test/java/org/keycloak/testsuite/util/AssertAdminEvents.java:234-237 | issuer `.../realms/myrealm` and subject `user-123` give realm `myrealm`, user `user-123` and no client |
| `Representations.IsGetterName` | testsuite/integration-arquillian/tests/base/src/test/java/org/keycloak/testsuite/util/AssertAdminEvents.java:209 | the methods compared are those whose names start with "get" or "is" (definition) |
| `Representations.Lookup` | testsuite/integration-arquillian/tests/base/src/test/java/org/keycloak/testsuite/util/AssertAdminEvents.java:212 | invoking a getter on the decoded bean: a method the bean lacks reads as null (definition) |
| `Representations.Disagrees` | testsuite/integration-arquillian/tests/base/src/test/java/org/keycloak/testsuite/util/AssertAdminEvents.java:209-213 | getter `name` fails when the template sets it (non-null) and the actual bean returns a different value (definition) |
| `Representations.PartialMatch` | testsuite/integration-arquillian/tests/base/src/test/java/org/keycloak/testsuite/util/AssertAdminEvents.java:208-216 | the representation check passes when no getter of the template disagrees (definition) |
| `Representations.CompareRepresentation` | testsuite/integration-arquillian/tests/base/src/test/java/org/keycloak/testsuite/util/AssertAdminEvents.java:208-216 | reports no mismatch iff every get*/is* property the template sets equals the actual value; a reported name is a getter the template sets and the actual contradicts |
| `Representations.OnlySetGettersMatter` | testsuite/integration-arquillian/tests/base/src/test/java/org/keycloak/testsuite/util/AssertAdminEvents.java:209-214 | two actual representations that agree on the template's non-null getters are accepted or rejected alike |
| `Representations.UnsetPropertyIgnored` | testsuite/integration-arquillian/tests/base/src/test/java/org/keycloak/testsuite/util/AssertAdminEvents.java:209-211 | changing a property that the template leaves null, or that is not a getter, never changes the outcome |
| `Representations.PartialMatchLaw` | testsuite/integration-arquillian/tests/base/src/test/java/org/keycloak/testsuite/util/AssertAdminEvents.java:200-216 | a template setting only getA and getC accepts every representation with those two values, whatever getB returns |
| `Representations.TemplateMatchesItself` | testsuite/integration-arquillian/tests/base/src/test/java/org/keycloak/testsuite/util/AssertAdminEvents.java:208-214 | a template accepts the bean it describes |
| `Representations.FewerSetPropertiesAcceptMore` | testsuite/integration-arquillian/tests/base/src/test/java/org/keycloak/testsuite/util/AssertAdminEvents.java:209-214 | a template that sets a subset of another's properties, to the same values, accepts everything the other accepts |
| `Expectations.Initial` | testsuite/integration-arquillian/tests/base/src/test/java/org/keycloak/testsuite/util/AssertAdminEvents.java:122-124 | a new builder holds a blank expected event, no matcher and no template (definition) |
| `Expectations.WithErrorSuffix` | testsuite/integration-arquillian/tests/base/src/test/java/org/keycloak/testsuite/util/AssertAdminEvents.java:156-160 | with both error and operation type set, the operation type gains "_ERROR"; otherwise nothing changes; no other field changes |
| `Expectations.SetOperationType` | testsuite/integration-arquillian/tests/base/src/test/java/org/keycloak/testsuite/util/AssertAdminEvents.java:135-139 | stores the operation's name, followed by "_ERROR" exactly when an error is already set; only the operation type changes |
| `Expectations.SetError` | testsuite/integration-arquillian/tests/base/src/test/java/org/keycloak/testsuite/util/AssertAdminEvents.java:150-154 | stores the error; a non-null error suffixes an operation type that is set; a null error leaves it unchanged; nothing else changes |
| `Expectations.OperationTypeKeepsSuffix` | testsuite/integration-arquillian/tests/base/src/test/java/org/keycloak/testsuite/util/AssertAdminEvents.java:135-160 | operationType(..) keeps the invariant "error and operation type set implies the type ends in _ERROR" |
| `Expectations.ErrorKeepsSuffix` | testsuite/integration-arquillian/tests/base/src/test/java/org/keycloak/testsuite/util/AssertAdminEvents.java:150-160 | error(..) keeps the same invariant |
| `Expectations.SetterOrderIrrelevant` | testsuite/integration-arquillian/tests/base/src/test/java/org/keycloak/testsuite/util/AssertAdminEvents.java:135-160 | with no earlier error, operationType(op).error(e) and error(e).operationType(op) give the same expected event, with operation type op + "_ERROR" |
| `Expectations.SetterOrderMattersAfterError` | testsuite/integration-arquillian/tests/base/src/test/java/org/keycloak/testsuite/util/AssertAdminEvents.java:135-160 | with an earlier error, operationType(op).error(e) suffixes twice and error(e).operationType(op) once, so the two orders differ |
| `Expectations.RepeatedErrorSuffixesTwice` | testsuite/integration-arquillian/tests/base/src/test/java/org/keycloak/testsuite/util/AssertAdminEvents.java:150-160 | two error(..) calls append "_ERROR" twice: the rule is not idempotent |
| `Expectations.CreateWithErrorExample` | testsuite/integration-arquillian/tests/base/src/test/java/org/keycloak/testsuite/util/AssertAdminEvents.java:135-160 | operationType(CREATE) then error("some-error") expects "CREATE_ERROR" |
| `Expectations.EffectiveAuthDetails` | testsuite/integration-arquillian/tests/base/src/test/java/org/keycloak/testsuite/util/AssertAdminEvents.java:188-191 | the auth details compared are the expected ones, or `defaults` (the value defaultAuthDetails() returns) when none are set (definition) |
| `Expectations.Detects` | testsuite/integration-arquillian/tests/base/src/test/java/org/keycloak/testsuite/util/AssertAdminEvents.java:181-198 | each field assertion as a failure condition: realm, operation type, matcher missing or rejecting, error, auth details missing, auth realm, auth user, and auth client only when one is expected (definition) |
| `Expectations.AuthCheckFails` | testsuite/integration-arquillian/tests/base/src/test/java/org/keycloak/testsuite/util/AssertAdminEvents.java:194-198 | the three auth-detail assertions against a given expected auth-details value; the client id only when it is non-null (definition) |
| `Expectations.FieldChecks` | testsuite/integration-arquillian/tests/base/src/test/java/org/keycloak/testsuite/util/AssertAdminEvents.java:181-198 | the nine field checks in the order the source performs them: realm, operation type, matcher missing, matcher rejecting, error, auth details missing, auth realm, auth user, auth client (definition) |
| `Expectations.FirstFailingCheck` | testsuite/integration-arquillian/tests/base/src/test/java/org/keycloak/testsuite/util/AssertAdminEvents.java:181-198 | the index returned is that of a failing check, and every earlier check holds (or it is past the end when none fails) |
| `Expectations.FirstFailure` | testsuite/integration-arquillian/tests/base/src/test/java/org/keycloak/testsuite/util/AssertAdminEvents.java:181-198 | the failure reported first, if any, is one of the field checks and fails on the event; none is reported exactly when all nine checks hold |
| `Expectations.FirstFailureIsFirstFailingCheck` | testsuite/integration-arquillian/tests/base/src/test/java/org/keycloak/testsuite/util/AssertAdminEvents.java:181-198 | the checks written out in the source's order report exactly the first failing entry of the ordered check list, or none |
| `Expectations.FieldsAgreeIffNoCheckFails` | testsuite/integration-arquillian/tests/base/src/test/java/org/keycloak/testsuite/util/AssertAdminEvents.java:181-198 | the nine field checks, each named, all hold iff no check in the ordered list fails |
| `Expectations.RepresentationAccepted` | testsuite/integration-arquillian/tests/base/src/test/java/org/keycloak/testsuite/util/AssertAdminEvents.java:201-221 | with a template, the actual event must carry a representation that decodes and partially matches it; without one, nothing is required (definition) |
| `Expectations.FieldsAgree` | testsuite/integration-arquillian/tests/base/src/test/java/org/keycloak/testsuite/util/AssertAdminEvents.java:181-198 | every field assertion of assertEvent(actual) passes, each check named (definition) |
| `Expectations.Accepts` | testsuite/integration-arquillian/tests/base/src/test/java/org/keycloak/testsuite/util/AssertAdminEvents.java:180-221 | an event is accepted when every field check and the representation check hold (definition) |
| `Expectations.IsVerdict` | testsuite/integration-arquillian/tests/base/src/test/java/org/keycloak/testsuite/util/AssertAdminEvents.java:180-224 | the results assertEvent(actual) may give: the first failing field check, then a missing, undecodable or mismatching representation, and otherwise the actual event (definition) |
| `Expectations.VerdictPassesIffAccepted` | testsuite/integration-arquillian/tests/base/src/test/java/org/keycloak/testsuite/util/AssertAdminEvents.java:180-224 | assertEvent passes iff every field check and the representation check hold, and then returns the actual event unchanged |
| `Expectations.AcceptedAuthDetails` | testsuite/integration-arquillian/tests/base/src/test/java/org/keycloak/testsuite/util/AssertAdminEvents.java:188-198 | an accepted event has auth details with the expected realm and user ids, and also the expected client id when one is set |
| `Expectations.AcceptedDefaultAuthDetails` | testsuite/integration-arquillian/tests/base/src/test/java/org/keycloak/testsuite/util/AssertAdminEvents.java:188-195 | without explicit auth details, an accepted event has the token issuer's realm and the token subject as user |
| `Expectations.AcceptedErroneousOperationType` | testsuite/integration-arquillian/tests/base/src/test/java/org/keycloak/testsuite/util/AssertAdminEvents.java:135-160 | an expectation that keeps the builder invariant and sets both an error and an operation type accepts only events with that error and an operation type ending in "_ERROR" |
| `Expectations.UnsetClientIdAcceptsAnyClient` | testsuite/integration-arquillian/tests/base/src/test/java/org/keycloak/testsuite/util/AssertAdminEvents.java:196-198 | a null expected client id accepts any actual client id |
| `Expectations.AuthChecksIgnoreClientId` | testsuite/integration-arquillian/tests/base/src/test/java/org/keycloak/testsuite/util/AssertAdminEvents.java:196-198 | with no expected client id, no auth-details check depends on the actual client id |
| `Expectations.NoMatcherAcceptsNothing` | testsuite/integration-arquillian/tests/base/src/test/java/org/keycloak/testsuite/util/AssertAdminEvents.java:183 | with no matcher, null ones included, no event is accepted |
| `Expectations.NoTemplateIgnoresRepresentation` | testsuite/integration-arquillian/tests/base/src/test/java/org/keycloak/testsuite/util/AssertAdminEvents.java:201 | without a template, the actual representation has no effect on the outcome |
| `Expectations.TemplateNeedsRepresentation` | testsuite/integration-arquillian/tests/base/src/test/java/org/keycloak/testsuite/util/AssertAdminEvents.java:202-203 | with a template, an event that has no representation is rejected |
| `AdminEventAssertions.Built` | testsuite/integration-arquillian/tests/base/src/test/java/org/keycloak/testsuite/util/AssertAdminEvents.java:110-116 | the convenience overload expects the given realm, operation name (no error, no auth details), matcher, which may be null, and template |
| `AdminEventAssertions.AssertAdminEvents.constructor` | testsuite/integration-arquillian/tests/base/src/test/java/org/keycloak/testsuite/util/AssertAdminEvents.java:49-51 | the helper starts out looking at the server's pending events |
| `AdminEventAssertions.AssertAdminEvents.FetchNextEvent` | testsuite/integration-arquillian/tests/base/src/test/java/org/keycloak/testsuite/util/AssertAdminEvents.java:88-90 | an empty queue yields null and stays empty; otherwise the oldest event is returned and removed |
| `AdminEventAssertions.AssertAdminEvents.Poll` | testsuite/integration-arquillian/tests/base/src/test/java/org/keycloak/testsuite/util/AssertAdminEvents.java:66-71 | on an empty queue it fails with "admin event expected"; otherwise it returns and removes the oldest event |
| `AdminEventAssertions.AssertAdminEvents.AssertEmpty` | testsuite/integration-arquillian/tests/base/src/test/java/org/keycloak/testsuite/util/AssertAdminEvents.java:73-76 | passes iff the queue is empty; otherwise it fails naming the oldest event, which it consumes |
| `AdminEventAssertions.AssertAdminEvents.Clear` | testsuite/integration-arquillian/tests/base/src/test/java/org/keycloak/testsuite/util/AssertAdminEvents.java:79-86 | passes iff the server answers 200, which leaves the queue empty; any other status fails with that status |
| `AdminEventAssertions.AssertAdminEvents.Expect` | testsuite/integration-arquillian/tests/base/src/test/java/org/keycloak/testsuite/util/AssertAdminEvents.java:92-94 | returns a new, empty expectation bound to this helper |
| `AdminEventAssertions.AssertAdminEvents.AssertEvent` | testsuite/integration-arquillian/tests/base/src/test/java/org/keycloak/testsuite/util/AssertAdminEvents.java:98-116 | consumes one event and gives the verdict for the built expectation; on an empty queue it fails with "admin event expected" |
| `AdminEventAssertions.ExpectedAdminEvent.constructor` | testsuite/integration-arquillian/tests/base/src/test/java/org/keycloak/testsuite/util/AssertAdminEvents.java:120-124 | blank expected event, no matcher, no template |
| `AdminEventAssertions.ExpectedAdminEvent.RealmId` | testsuite/integration-arquillian/tests/base/src/test/java/org/keycloak/testsuite/util/AssertAdminEvents.java:126-129 | sets only the expected realm id and returns the same builder |
| `AdminEventAssertions.ExpectedAdminEvent.Realm` | testsuite/integration-arquillian/tests/base/src/test/java/org/keycloak/testsuite/util/AssertAdminEvents.java:131-133 | sets only the expected realm id, to the realm's id |
| `AdminEventAssertions.ExpectedAdminEvent.OperationType` | testsuite/integration-arquillian/tests/base/src/test/java/org/keycloak/testsuite/util/AssertAdminEvents.java:135-139 | the expected event becomes SetOperationType of the old one; matcher and template unchanged; invariant kept |
| `AdminEventAssertions.ExpectedAdminEvent.ResourcePath` | testsuite/integration-arquillian/tests/base/src/test/java/org/keycloak/testsuite/util/AssertAdminEvents.java:141-143 | sets only the matcher, to exact equality with the given path |
| `AdminEventAssertions.ExpectedAdminEvent.ResourcePathMatching` | testsuite/integration-arquillian/tests/base/src/test/java/org/keycloak/testsuite/util/AssertAdminEvents.java:145-148 | sets only the matcher, which may be null |
| `AdminEventAssertions.ExpectedAdminEvent.Error` | testsuite/integration-arquillian/tests/base/src/test/java/org/keycloak/testsuite/util/AssertAdminEvents.java:150-154 | the expected event becomes SetError of the old one; matcher and template unchanged; invariant kept |
| `AdminEventAssertions.ExpectedAdminEvent.UpdateOperationTypeIfError` | testsuite/integration-arquillian/tests/base/src/test/java/org/keycloak/testsuite/util/AssertAdminEvents.java:156-160 | rewrites the stored operation type in place, as WithErrorSuffix |
| `AdminEventAssertions.ExpectedAdminEvent.AuthDetails` | testsuite/integration-arquillian/tests/base/src/test/java/org/keycloak/testsuite/util/AssertAdminEvents.java:162-169 | sets only the expected auth details, to the given realm, client and user |
| `AdminEventAssertions.ExpectedAdminEvent.Representation` | testsuite/integration-arquillian/tests/base/src/test/java/org/keycloak/testsuite/util/AssertAdminEvents.java:171-174 | sets only the template |
| `AdminEventAssertions.ExpectedAdminEvent.AssertNextEvent` | testsuite/integration-arquillian/tests/base/src/test/java/org/keycloak/testsuite/util/AssertAdminEvents.java:176-178 | consumes one event and gives the verdict for it; on an empty queue it fails with "admin event expected" |
| `AdminEventAssertions.ExpectedAdminEvent.CheckFields` | testsuite/integration-arquillian/tests/base/src/test/java/org/keycloak/testsuite/util/AssertAdminEvents.java:181-198 | reports the failure of the first field check that fails, in the source's order, and nothing when all hold; the result is both `FirstFailure` and the first failing entry of the ordered check list |
| `AdminEventAssertions.ExpectedAdminEvent.AssertEvent` | testsuite/integration-arquillian/tests/base/src/test/java/org/keycloak/testsuite/util/AssertAdminEvents.java:180-224 | its result is the verdict `IsVerdict` allows when the defaults are what defaultAuthDetails() derives from the admin token; for a valid builder expecting both an error and an operation type, an accepted event carries that error and an "_ERROR" operation type |
| `AdminEventAssertions.ExpectedAdminEvent.AssertEventAgainst` | testsuite/integration-arquillian/tests/base/src/test/java/org/keycloak/testsuite/util/AssertAdminEvents.java:180-224 | with the given default auth details, fails at the first failing check, in this order: realm, operation type, resource path, error, auth details, representation; otherwise returns the actual event, which for a valid builder expecting both an error and an operation type carries that error and an "_ERROR" operation type |

## Left out

- The JUnit rule `apply` (lines 54-64) is left out. It is test-framework lifecycle: it clears the queue before each test.
- The remote testing client is not modelled. The server's queue is the `queue` field, and `clear` takes the status the server answers as a parameter.
- `AdminEventAssertions.AssertAdminEvents.Clear`: it says nothing about the queue when the server answers anything but 200. The server's behaviour in that case is not part of this model.
- JSON decoding of the representation is a parameter `decode` from the raw payload to the template's properties. `None` stands for the IOException, which the source rethrows.
- Reflection over the template's class is replaced by a finite map from method name to returned value. Java `equals` on property values is structural equality of `Value`.
- `Value` covers only property values whose `equals` compares contents: strings, numbers, booleans and lists. In the source, arrays and beans without their own `equals` compare by identity. The bean decoded at line 206 is always a new object, so a template that sets such a getter never matches, not even its own JSON. This is not modelled, and `Representations.TemplateMatchesItself` holds only over the `Value` domain.
- `Representations.CompareRepresentation`: it may report any disagreeing getter, not one fixed getter. The source iterates a hash set, so the getter it reports first is unspecified.
- Token parsing is left out: the JWS decode, reading the token's claims, and its RuntimeException on malformed tokens. `AuthDefaults.TokenClaims` gives the issuer and subject directly, and a null issuer is not modelled.
- Hamcrest matchers other than `equalTo` are opaque predicates on the nullable path.
- Assertion message texts are left out. A failure only names its check, the unexpected event, or the rejected status.
- Null dereferences are failures where the source can reach them at run time. A builder with no resource-path matcher fails with `ResourcePathUnset`. That covers a matcher that was never set, and a null one passed to `resourcePath(Matcher)` (lines 145-147) or to the overloads at lines 102-104 and 110-116 (`Option<PathMatcher>` parameters). An actual event without auth details fails with `AuthDetailsMissing`. Null arguments to `operationType(..)` and `realm(..)` cannot be expressed, because those parameters are not nullable in the model.
- `assertEvent(actual)` with a null `actual` throws at its first check. The model's `actual` is an `AdminEvent` value and cannot be null, so this case is not modelled.
- `AdminEventAssertions.ExpectedAdminEvent.Representation`: it stores the template as a value. The source keeps a reference to a mutable bean, so a template changed after `representation(..)` and before `assertEvent` is compared in its changed state; the model does not capture that aliasing.
- The OperationType enum is not part of this model. Its constants are taken to be CREATE, UPDATE, DELETE and ACTION.
- Only the fields of AdminEventRepresentation that assertions read are modelled. Its other fields, such as the time and the resource type, are left out.
