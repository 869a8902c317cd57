/**
 * The partial structural comparison of representations: only the getter
 * properties that the expected template sets (non-null) are compared with the
 * actual representation, decoded into the template's own class.
 */
module Representations {
  import opened Wrappers
  import opened Events

  /** The methods the comparison invokes: those whose names start with "get" or "is". */
  predicate IsGetterName(name: string) {
    "get" <= name || "is" <= name
  }

  /** What a method of the bean returns; a method the map lacks reads as null. */
  function Lookup(rep: Properties, name: string): Option<Value> {
    if name in rep then rep[name] else None
  }

  /** The template sets getter `name` and the actual representation returns something else for it. */
  predicate Disagrees(template: Properties, actual: Properties, name: string) {
    && name in template
    && IsGetterName(name)
    && template[name].Some?
    && Lookup(actual, name) != template[name]
  }

  /** Every getter the template sets agrees with the actual representation. */
  predicate PartialMatch(template: Properties, actual: Properties) {
    forall name | name in template :: !Disagrees(template, actual, name)
  }

  /**
   * The loop over the template's declared methods. The source iterates a hash set,
   * so which disagreeing getter is reported first is left open.
   */
  method CompareRepresentation(template: Properties, actual: Properties) returns (mismatch: Option<string>)
    ensures mismatch.None? <==> PartialMatch(template, actual)
    ensures mismatch.Some? ==> Disagrees(template, actual, mismatch.value)
  {
    var methods := template.Keys;
    while methods != {}
      invariant methods <= template.Keys
      invariant forall name | name in template && name !in methods :: !Disagrees(template, actual, name)
      decreases methods
    {
      var name :| name in methods;
      if IsGetterName(name) {
        var expectedValue := template[name];
        if expectedValue.Some? {
          var actualValue := Lookup(actual, name);
          if actualValue != expectedValue {
            return Some(name);
          }
        }
      }
      methods := methods - {name};
    }
    return None;
  }

  /**
   * Two actual representations that agree on every getter the template sets are
   * accepted or rejected alike, whatever else they hold.
   */
  lemma OnlySetGettersMatter(template: Properties, actual: Properties, other: Properties)
    requires forall name | name in template && IsGetterName(name) && template[name].Some? ::
               Lookup(actual, name) == Lookup(other, name)
    ensures PartialMatch(template, actual) <==> PartialMatch(template, other)
  {
    forall name | name in template
      ensures Disagrees(template, actual, name) <==> Disagrees(template, other, name)
    {
    }
  }

  /** Changing a property the template leaves null, or one that is not a getter, never causes a failure. */
  lemma UnsetPropertyIgnored(template: Properties, actual: Properties, name: string, v: Option<Value>)
    requires !(name in template && IsGetterName(name) && template[name].Some?)
    ensures PartialMatch(template, actual) <==> PartialMatch(template, actual[name := v])
  {
    OnlySetGettersMatter(template, actual, actual[name := v]);
  }

  /**
   * The partial-match law: a template that sets only "getA" and "getC" accepts every
   * representation agreeing on those two, whatever it returns from "getB" or anything else.
   */
  lemma PartialMatchLaw(a: Value, c: Value, actual: Properties)
    requires Lookup(actual, "getA") == Some(a) && Lookup(actual, "getC") == Some(c)
    ensures PartialMatch(map["getA" := Some(a), "getB" := None, "getC" := Some(c)], actual)
  {
  }

  /** A template accepts the bean it describes. */
  lemma TemplateMatchesItself(template: Properties)
    ensures PartialMatch(template, template)
  {
  }

  /** Setting fewer properties on a template (to the same values) only accepts more. */
  lemma FewerSetPropertiesAcceptMore(template: Properties, weaker: Properties, actual: Properties)
    requires forall name | name in weaker && IsGetterName(name) && weaker[name].Some? ::
               name in template && template[name] == weaker[name]
    requires PartialMatch(template, actual)
    ensures PartialMatch(weaker, actual)
  {
    forall name | name in weaker
      ensures !Disagrees(weaker, actual, name)
    {
      if IsGetterName(name) && weaker[name].Some? {
        assert !Disagrees(template, actual, name);
      }
    }
  }
}
