/**
 * The values an admin-event assertion works on: the events the server under
 * test emits, the details of who performed them, the representation payload
 * they carry, and the ways an assertion can fail.
 */
module Events {
  import opened Wrappers

  /** AuthDetailsRepresentation: the realm, client and user that performed an admin action. */
  datatype AuthDetails = AuthDetails(realmId: Option<string>, clientId: Option<string>, userId: Option<string>)

  /** A property value of a representation bean, compared with Java's `equals`. */
  datatype Value =
    | Text(text: string)
    | Number(number: int)
    | Flag(flag: bool)
    | Items(items: seq<Value>)

  /**
   * A representation bean, seen through its declared methods: the name of each method
   * mapped to what invoking it on the bean returns (`None` for `null`).
   */
  type Properties = map<string, Option<Value>>

  /**
   * AdminEventRepresentation, restricted to the fields an assertion reads. The
   * representation is the raw encoded payload, decoded only when a template is compared.
   */
  datatype AdminEvent = AdminEvent(
    realmId: Option<string>,
    operationType: Option<string>,
    resourcePath: Option<string>,
    error: Option<string>,
    authDetails: Option<AuthDetails>,
    representation: Option<string>)

  /** A freshly constructed AdminEventRepresentation: every field is null. */
  const BlankEvent := AdminEvent(None, None, None, None, None, None)

  /** RealmRepresentation, restricted to its id. */
  datatype Realm = Realm(id: Option<string>)

  /** The admin operation types; an expectation stores the enum constant's name. */
  datatype OperationType = Create | Update | Delete | Action {
    function Name(): (name: string)
      ensures |name| > 0
    {
      match this
      case Create => "CREATE"
      case Update => "UPDATE"
      case Delete => "DELETE"
      case Action => "ACTION"
    }
  }

  /**
   * A matcher of resource paths: `EqualTo` is Hamcrest's `equalTo` (which also matches
   * null against null), `Satisfies` any other matcher, taken as an opaque predicate.
   */
  datatype PathMatcher = EqualTo(path: Option<string>) | Satisfies(accepts: Option<string> -> bool)

  predicate Matches(m: PathMatcher, path: Option<string>) {
    match m
    case EqualTo(p) => path == p
    case Satisfies(accepts) => accepts(path)
  }

  /** Why an assertion failed: one constructor per check of the source. */
  datatype Failure =
    | RealmIdMismatch
    | OperationTypeMismatch
    | ResourcePathUnset        // no matcher was set: Hamcrest's assertThat dereferences null
    | ResourcePathMismatch
    | ErrorMismatch
    | AuthDetailsMissing       // the actual event has no auth details: the source dereferences null
    | AuthRealmIdMismatch
    | AuthUserIdMismatch
    | AuthClientIdMismatch
    | RepresentationMissing
    | RepresentationUndecodable
    | PropertyMismatch(name: string)
    | EventMissing
    | UnexpectedEvent(event: AdminEvent)
    | ClearRejected(status: int)

  /** The result of an assertion that returns the event it checked. */
  datatype Outcome = Passed(event: AdminEvent) | Failed(failure: Failure)

  /** The result of an assertion that returns nothing. */
  datatype Verdict = Pass | Fail(failure: Failure)
}
