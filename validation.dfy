/**
 * Declarative validation as the schemas of the profile actions use it: every
 * check is a predicate paired with the message reported when it fails. The
 * checks of one field are not fatal to each other: each of them runs and the
 * message of every failing one is reported, in the order the checks are written.
 */
module Validation {

  /** A validation message. The schema spells some of them out; the others are
      the validation library's default texts, which the model keeps abstract. */
  datatype Message =
    | Custom(text: string)
    | TooSmall(minimum: nat)  // default message of a minimum-length check
    | ExpectedString          // default message when a string field is not a string

  /** One check: the predicate a value must satisfy and the message reported otherwise. */
  datatype Rule<-T> = Rule(holds: T -> bool, message: Message)

  /** The flattened errors of an object schema: from field name to its messages. */
  type FieldErrors = map<string, seq<Message>>

  /** The messages of the failing rules, in rule order. Every reported message
      comes from a rule that fails on `x`. */
  function Issues<T>(rules: seq<Rule<T>>, x: T): (ms: seq<Message>)
    ensures |ms| <= |rules|
    ensures forall m :: m in ms ==> exists r :: r in rules && !r.holds(x) && r.message == m
  {
    if rules == [] then []
    else
      var rest := Issues(rules[1..], x);
      assert forall r :: r in rules[1..] ==> r in rules;
      (if rules[0].holds(x) then [] else [rules[0].message]) + rest
  }

  /** A value passes exactly when every rule holds of it. */
  lemma {:induction false} NoIssuesIff<T>(rules: seq<Rule<T>>, x: T)
    ensures Issues(rules, x) == [] <==> forall r :: r in rules ==> r.holds(x)
  {
    if rules != [] {
      NoIssuesIff(rules[1..], x);
      assert rules == [rules[0]] + rules[1..];
    }
  }

  /** Checks are not fatal: the message of every failing rule is reported,
      whatever the other rules found. */
  lemma {:induction false} FailingRuleReported<T>(rules: seq<Rule<T>>, x: T, i: nat)
    requires i < |rules| && !rules[i].holds(x)
    ensures rules[i].message in Issues(rules, x)
  {
    if i > 0 {
      FailingRuleReported(rules[1..], x, i - 1);
    }
  }

  /** The field-error entry of one field: present only when it has messages. */
  function Entry(field: string, ms: seq<Message>): (e: FieldErrors)
    ensures field in e <==> ms != []
    ensures e.Keys <= {field}
    ensures field in e ==> e[field] == ms
  {
    if ms == [] then map[] else map[field := ms]
  }
}
