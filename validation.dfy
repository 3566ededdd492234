/**
  A small model of the struct-validation composition that a field's settings
  check relies on: every configuration attribute is paired with an ordered
  list of rules; the rules of one attribute stop at the first that fails,
  while the struct check visits every attribute and reports the failures in
  a map keyed by the attribute's name.
 */
module Validation {

  datatype Option<+T> = None | Some(value: T)

  /** The value of one configuration attribute, as a rule sees it. */
  datatype AttrValue = Str(s: string) | Int(i: int)

  /** One rule: a custom check, or an inclusive lower or upper numeric bound. */
  datatype Rule =
    | By(check: AttrValue -> bool)
    | Min(threshold: int)
    | Max(threshold: int)

  /** What a failing rule reports: the custom rule's failure, the bound that
      was crossed, or a bound applied to a value that is not a number. */
  datatype RuleError =
    | CustomRuleFailed
    | LessThanMin(min: int)
    | GreaterThanMax(max: int)
    | NotNumeric

  /** An attribute, under the key it is reported by, with its value and rules. */
  datatype AttrRules = AttrRules(key: string, value: AttrValue, rules: seq<Rule>)

  /** The outcome of one rule on one value. */
  function Apply(r: Rule, v: AttrValue): Option<RuleError>
  {
    match r
    case By(check) => if check(v) then None else Some(CustomRuleFailed)
    case Min(m) =>
      if !v.Int? then Some(NotNumeric)
      else if v.i < m then Some(LessThanMin(m))
      else None
    case Max(m) =>
      if !v.Int? then Some(NotNumeric)
      else if v.i > m then Some(GreaterThanMax(m))
      else None
  }

  /** The rules of one attribute, run in order up to the first that fails:
      no error exactly when every rule passes, and otherwise the error of the
      first failing rule, every rule before it having passed. */
  function FirstFailure(rules: seq<Rule>, v: AttrValue): (e: Option<RuleError>)
    ensures e.None? <==> forall i :: 0 <= i < |rules| ==> Apply(rules[i], v).None?
    ensures e.Some? ==>
      exists i :: 0 <= i < |rules| && Apply(rules[i], v) == e &&
        forall j :: 0 <= j < i ==> Apply(rules[j], v).None?
    decreases |rules|
  {
    if rules == [] then None
    else
      match Apply(rules[0], v)
      case Some(err) => Some(err)
      case None =>
        var rest := FirstFailure(rules[1..], v);
        assert forall i :: 1 <= i < |rules| ==> rules[i] == rules[1..][i - 1];
        rest
  }

  /** The failure, if any, that an attribute reports. */
  function Outcome(a: AttrRules): Option<RuleError>
  {
    FirstFailure(a.rules, a.value)
  }

  /** The keys of the attributes. */
  function Keys(attrs: seq<AttrRules>): set<string>
    decreases |attrs|
  {
    if attrs == [] then {} else Keys(attrs[..|attrs| - 1]) + {attrs[|attrs| - 1].key}
  }

  /** A key that no attribute carries is not among the attributes' keys. */
  lemma {:induction false} KeyOfNoAttribute(attrs: seq<AttrRules>, k: string)
    requires forall i :: 0 <= i < |attrs| ==> attrs[i].key != k
    ensures k !in Keys(attrs)
    decreases |attrs|
  {
    if attrs != [] {
      var init := attrs[..|attrs| - 1];
      assert forall i :: 0 <= i < |init| ==> init[i] == attrs[i];
      KeyOfNoAttribute(init, k);
    }
  }

  /** Every attribute is checked, in order; each failure is recorded under the
      attribute's key, so only the attributes' keys are ever reported. */
  function ValidateStruct(attrs: seq<AttrRules>): (errs: map<string, RuleError>)
    ensures errs.Keys <= Keys(attrs)
    decreases |attrs|
  {
    if attrs == [] then map[]
    else
      var errs := ValidateStruct(attrs[..|attrs| - 1]);
      var last := attrs[|attrs| - 1];
      match Outcome(last)
      case None => errs
      case Some(e) => errs[last.key := e]
  }

  predicate DistinctKeys(attrs: seq<AttrRules>)
  {
    forall i, j :: 0 <= i < j < |attrs| ==> attrs[i].key != attrs[j].key
  }

  /** The struct check reports every failing attribute, not only the first:
      when the keys are distinct, an attribute's key is reported exactly when
      one of its rules fails, with that attribute's first failure. */
  lemma {:induction false} ValidateStructReportsEveryFailure(attrs: seq<AttrRules>)
    requires DistinctKeys(attrs)
    ensures forall i :: 0 <= i < |attrs| ==>
      (attrs[i].key in ValidateStruct(attrs) <==> Outcome(attrs[i]).Some?)
    ensures forall i :: 0 <= i < |attrs| && attrs[i].key in ValidateStruct(attrs) ==>
      Some(ValidateStruct(attrs)[attrs[i].key]) == Outcome(attrs[i])
    decreases |attrs|
  {
    if attrs != [] {
      var n := |attrs| - 1;
      var init, last := attrs[..n], attrs[n];
      assert DistinctKeys(init) by {
        forall i, j | 0 <= i < j < |init| ensures init[i].key != init[j].key {
          assert init[i] == attrs[i] && init[j] == attrs[j];
        }
      }
      ValidateStructReportsEveryFailure(init);
      var prev, errs := ValidateStruct(init), ValidateStruct(attrs);
      assert forall i :: 0 <= i < |init| ==> init[i] == attrs[i];
      KeyOfNoAttribute(init, last.key);
      forall i | 0 <= i < |attrs|
        ensures attrs[i].key in errs <==> Outcome(attrs[i]).Some?
        ensures attrs[i].key in errs ==> Some(errs[attrs[i].key]) == Outcome(attrs[i])
      {
        if i < n {
          assert attrs[i] == init[i] && attrs[i].key != last.key;
          assert attrs[i].key in errs <==> attrs[i].key in prev;
        }
      }
    }
  }
}
