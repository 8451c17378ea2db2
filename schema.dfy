/**
 * Form validation as the schema library does it for the booking and contact
 * forms: every field has a rule and a message, and the errors are the
 * messages of the fields whose rule fails, in the fields' order.
 */
module Schema {
  import opened Seqs

  /** One field's rule as evaluated on the current values: the field, whether it passed, and its message. */
  datatype Rule<F> = Rule(field: F, ok: bool, message: string)

  /** A message shown under a field. */
  datatype FieldError<F> = FieldError(field: F, message: string)

  /** The errors for `rules`, in their order: one per rule that failed. */
  function Errors<F>(rules: seq<Rule<F>>): (r: seq<FieldError<F>>)
    ensures r == [] <==> forall x :: x in rules ==> x.ok
    ensures forall e :: e in r ==> Rule(e.field, false, e.message) in rules
    decreases |rules|
  {
    if rules == [] then []
    else
      var rest := Errors(rules[1..]);
      assert rules == [rules[0]] + rules[1..];
      if rules[0].ok then rest
      else [FieldError(rules[0].field, rules[0].message)] + rest
  }

  /** Every rule that failed gets its error. */
  lemma {:induction false} ErrorsComplete<F>(rules: seq<Rule<F>>, rule: Rule<F>)
    requires rule in rules && !rule.ok
    ensures FieldError(rule.field, rule.message) in Errors(rules)
    decreases |rules|
  {
    if rules[0] != rule {
      assert rules == [rules[0]] + rules[1..];
      ErrorsComplete(rules[1..], rule);
    }
  }

  /** When no two rules are for the same field, a field is flagged with its message exactly when its rule fails. */
  lemma ErrorsExactly<F>(rules: seq<Rule<F>>, rule: Rule<F>)
    requires forall i, j :: 0 <= i < j < |rules| ==> rules[i].field != rules[j].field
    requires rule in rules
    ensures FieldError(rule.field, rule.message) in Errors(rules) <==> !rule.ok
  {
    if !rule.ok {
      ErrorsComplete(rules, rule);
    }
  }

  /** A rule that failed. */
  predicate Failing<F>(rule: Rule<F>)
  {
    !rule.ok
  }

  /** The error each rule would show. */
  function ErrorsOf<F>(rules: seq<Rule<F>>): (r: seq<FieldError<F>>)
    ensures |r| == |rules|
    ensures forall i :: 0 <= i < |r| ==> r[i] == FieldError(rules[i].field, rules[i].message)
  {
    seq(|rules|, i requires 0 <= i < |rules| => FieldError(rules[i].field, rules[i].message))
  }

  lemma ErrorsOfCons<F>(rule: Rule<F>, rules: seq<Rule<F>>)
    ensures ErrorsOf([rule] + rules) == [FieldError(rule.field, rule.message)] + ErrorsOf(rules)
  {
  }

  /** The errors are those of the failing rules, in the rules' order. */
  lemma {:induction false} ErrorsAreFailingRules<F>(rules: seq<Rule<F>>)
    ensures Errors(rules) == ErrorsOf(Filter(rules, Failing))
    decreases |rules|
  {
    if rules != [] {
      var first, tail := rules[0], rules[1..];
      ErrorsAreFailingRules(tail);
      var kept := Filter(tail, Failing);
      assert rules == [first] + tail;
      FilterCons(first, tail, Failing);
      if first.ok {
        assert [] + kept == kept;
      } else {
        ErrorsOfCons(first, kept);
      }
    }
  }
}
