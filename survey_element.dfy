/**
 * DynamoSurveyElement: a survey element row, keyed by the survey's compound key
 * `guid:createdOn` and its order in the survey. The rules are kept null-preserving, and
 * equals and hashCode are the Java contracts over the element's fields.
 */
module SurveyElement {
  import opened Wrappers
  import opened Text

  /** A survey rule, by its serialised form; the rule's own fields are not part of this model. */
  datatype SurveyRule = SurveyRule(json: string)

  /** The fields equals and hashCode look at. */
  datatype ElementFields = ElementFields(
    surveyCompoundKey: Option<string>,
    guid: Option<string>,
    identifier: Option<string>,
    elementType: Option<string>,
    order: int,
    rules: Option<seq<SurveyRule>>)

  /** What equals is handed: null, an object of another class, or a survey element. */
  datatype Other = NullRef | OtherClass | Element(element: DynamoSurveyElement)

  /** Where equals takes order and surveyCompoundKey from: as written, from this object itself. */
  datatype EqualsRule = AsWritten | Corrected

  /** The survey compound key setSurveyKeyComponents builds. */
  function SurveyKey(surveyGuid: string, createdOn: int): string {
    surveyGuid + ":" + IntToDecimal(createdOn)
  }

  lemma ColonOnlyAfterGuid(g: string, rest: string, i: nat)
    requires ':' !in g
    requires i <= |g|
    ensures (g + ":" + rest)[i] == ':' <==> i == |g|
  {
    if i < |g| {
      assert (g + ":" + rest)[i] == g[i];
    }
  }

  /** For guids without ':', the key determines the guid and the createdOn it was built from. */
  lemma SurveyKeyInjective(g1: string, t1: int, g2: string, t2: int)
    requires ':' !in g1 && ':' !in g2
    requires SurveyKey(g1, t1) == SurveyKey(g2, t2)
    ensures g1 == g2 && t1 == t2
  {
    var k := SurveyKey(g1, t1);
    var m := if |g1| < |g2| then |g1| else |g2|;
    ColonOnlyAfterGuid(g1, IntToDecimal(t1), m);
    ColonOnlyAfterGuid(g2, IntToDecimal(t2), m);
    assert g1 == k[..|g1|] == g2;
    assert IntToDecimal(t1) == k[|g1| + 1..] == IntToDecimal(t2);
    IntToDecimalInjective(t1, t2);
  }

  /** Java int arithmetic: a value modulo 2^32 (hash codes are compared as residues). */
  const TWO_TO_32: int := 0x1_0000_0000

  function Wrap(x: int): (r: int)
    ensures 0 <= r < TWO_TO_32
  {
    x % TWO_TO_32
  }

  /** String.hashCode: s[0]*31^(n-1) + ... + s[n-1], wrapped; 0 for null. */
  function StringHash(s: Option<string>): (r: int)
    ensures 0 <= r < TWO_TO_32
  {
    if s.None? then 0 else CharsHash(s.value)
  }

  function CharsHash(s: string): (r: int)
    ensures 0 <= r < TWO_TO_32
  {
    if s == [] then 0 else Wrap(31 * CharsHash(s[..|s| - 1]) + s[|s| - 1] as int)
  }

  /** Arrays.hashCode: 1, then 31 * h + each element's hash, wrapped. */
  function ArrayHash(hashes: seq<int>): (r: int)
    ensures 0 <= r < TWO_TO_32
  {
    if hashes == [] then 1 else Wrap(31 * ArrayHash(hashes[..|hashes| - 1]) + hashes[|hashes| - 1])
  }

  lemma WrapSmall(x: int)
    requires 0 <= x < TWO_TO_32
    ensures Wrap(x) == x
  {
  }

  lemma ArrayHashStep(hashes: seq<int>, h: int)
    ensures ArrayHash(hashes + [h]) == Wrap(31 * ArrayHash(hashes) + h)
  {
    assert (hashes + [h])[..|hashes|] == hashes;
  }

  /** List.hashCode over the rules, each hashed by ruleHash; 0 for null. */
  function RulesHash(rules: Option<seq<SurveyRule>>, ruleHash: SurveyRule -> int): int {
    if rules.None? then 0 else ArrayHash(RuleHashes(rules.value, ruleHash))
  }

  function RuleHashes(rules: seq<SurveyRule>, ruleHash: SurveyRule -> int): (r: seq<int>)
    ensures |r| == |rules|
  {
    if rules == [] then [] else RuleHashes(rules[..|rules| - 1], ruleHash) + [ruleHash(rules[|rules| - 1])]
  }

  /** hashCode: Objects.hash(guid, identifier, order, surveyCompoundKey, type, rules). */
  function HashOf(f: ElementFields, ruleHash: SurveyRule -> int): (r: int)
    ensures 0 <= r < TWO_TO_32
  {
    ArrayHash([StringHash(f.guid), StringHash(f.identifier), Wrap(f.order), StringHash(f.surveyCompoundKey),
               StringHash(f.elementType), RulesHash(f.rules, ruleHash)])
  }

  /** equals between two distinct elements of the class, with `self` the receiver. As written, order and
    * the compound key are compared with the receiver's own. */
  predicate EqualFields(rule: EqualsRule, self: ElementFields, other: ElementFields) {
    self.guid == other.guid &&
    self.identifier == other.identifier &&
    (if rule.AsWritten? then self.order == self.order else self.order == other.order) &&
    (if rule.AsWritten? then self.surveyCompoundKey == self.surveyCompoundKey else self.surveyCompoundKey == other.surveyCompoundKey) &&
    self.elementType == other.elementType &&
    self.rules == other.rules
  }

  /** As written, equals never looks at order or the compound key. */
  lemma AsWrittenIgnoresOrderAndKey(self: ElementFields, other: ElementFields, order: int, key: Option<string>)
    ensures EqualFields(AsWritten, self, other) == EqualFields(AsWritten, self, other.(order := order, surveyCompoundKey := key))
  {
  }

  /** Two elements that differ only in order: as written they are equal, and their hashes differ. */
  const FirstElement := ElementFields(None, None, None, None, 0, None)
  const SecondElement := ElementFields(None, None, None, None, 1, None)

  /** Objects.hash over the six fields of an element whose only non-null field is order, before the last three. */
  lemma OrderPrefixHash(order: int)
    requires 0 <= order < 10
    ensures ArrayHash([0, 0, order]) == 29791 + order
  {
    ArrayHashStep([], 0);
    assert ArrayHash([0]) == 31;
    ArrayHashStep([0], 0);
    assert [0] + [0] == [0, 0];
    assert ArrayHash([0, 0]) == 961;
    ArrayHashStep([0, 0], order);
    assert [0, 0] + [order] == [0, 0, order];
    WrapSmall(29791 + order);
  }

  /** One step of Arrays.hashCode while the running value stays below 2^32. */
  lemma ArrayHashSmallStep(hashes: seq<int>, h: int, v: int)
    requires ArrayHash(hashes) == v
    requires 0 <= 31 * v + h < TWO_TO_32
    ensures ArrayHash(hashes + [h]) == 31 * v + h
  {
    ArrayHashStep(hashes, h);
    WrapSmall(31 * v + h);
  }

  lemma OrderHashes(order: int)
    requires 0 <= order < 10
    ensures ArrayHash([0, 0, order, 0, 0, 0]) == 887503681 + 29791 * order
  {
    var hs3, hs4, hs5 := [0, 0, order], [0, 0, order, 0], [0, 0, order, 0, 0];
    OrderPrefixHash(order);
    ArrayHashSmallStep(hs3, 0, 29791 + order);
    assert hs3 + [0] == hs4;
    ArrayHashSmallStep(hs4, 0, 923521 + 31 * order);
    assert hs4 + [0] == hs5;
    ArrayHashSmallStep(hs5, 0, 28629151 + 961 * order);
    assert hs5 + [0] == [0, 0, order, 0, 0, 0];
  }

  lemma OrderShiftsHash(order: int, ruleHash: SurveyRule -> int)
    requires 0 <= order < 10
    ensures HashOf(ElementFields(None, None, None, None, order, None), ruleHash) == 887503681 + 29791 * order
  {
    WrapSmall(order);
    OrderHashes(order);
  }

  lemma EqualButHashedApart(ruleHash: SurveyRule -> int)
    ensures EqualFields(AsWritten, FirstElement, SecondElement)
    ensures HashOf(FirstElement, ruleHash) != HashOf(SecondElement, ruleHash)
  {
    OrderShiftsHash(0, ruleHash);
    OrderShiftsHash(1, ruleHash);
  }

  /** Corrected, equals compares every hashed field, so equal elements hash alike. */
  lemma CorrectedEqualsAgreesWithHash(self: ElementFields, other: ElementFields, ruleHash: SurveyRule -> int)
    requires EqualFields(Corrected, self, other)
    ensures HashOf(self, ruleHash) == HashOf(other, ruleHash)
  {
    assert self == other;
  }

  /** Corrected, equals is reflexive, symmetric and transitive over all six fields. */
  lemma {:induction false} CorrectedEqualsIsEquivalence(a: ElementFields, b: ElementFields, c: ElementFields)
    ensures EqualFields(Corrected, a, a)
    ensures EqualFields(Corrected, a, b) ==> EqualFields(Corrected, b, a)
    ensures EqualFields(Corrected, a, b) && EqualFields(Corrected, b, c) ==> EqualFields(Corrected, a, c)
  {
  }

  class DynamoSurveyElement {
    var surveyCompoundKey: Option<string>
    var guid: Option<string>
    var identifier: Option<string>
    var elementType: Option<string>
    var order: int
    var rules: Option<seq<SurveyRule>>

    constructor ()
      ensures Fields() == ElementFields(None, None, None, None, 0, None)
    {
      surveyCompoundKey, guid, identifier, elementType, order, rules := None, None, None, None, 0, None;
    }

    function Fields(): ElementFields
      reads this
    {
      ElementFields(surveyCompoundKey, guid, identifier, elementType, order, rules)
    }

    /** setSurveyKeyComponents: the compound key from the survey's guid and createdOn. */
    method SetSurveyKeyComponents(surveyGuid: string, createdOn: int)
      modifies this
      ensures Fields() == old(Fields()).(surveyCompoundKey := Some(SurveyKey(surveyGuid, createdOn)))
    {
      surveyCompoundKey := Some(SurveyKey(surveyGuid, createdOn));
    }

    method SetRules(rules: Option<seq<SurveyRule>>)
      modifies this
      ensures Fields() == old(Fields()).(rules := rules)
    {
      this.rules := rules;
    }

    /** getRules: null when no rules were ever stored (distinct from an empty list), else a copy of the stored list. */
    function GetRules(): (r: Option<seq<SurveyRule>>)
      reads this
      ensures r.None? <==> rules.None?
      ensures r.Some? ==> |r.value| == |rules.value| && forall i :: 0 <= i < |r.value| ==> r.value[i] == rules.value[i]
    {
      if rules.None? then None else Some(rules.value[..])
    }

    function HashCode(ruleHash: SurveyRule -> int): (r: int)
      reads this
      ensures 0 <= r < TWO_TO_32
    {
      HashOf(Fields(), ruleHash)
    }

    /** equals: the same reference is equal; null and other classes are not; otherwise the field comparison. */
    function Equals(rule: EqualsRule, obj: Other): (r: bool)
      reads this, if obj.Element? then {obj.element} else {}
      ensures obj.Element? && obj.element == this ==> r
      ensures obj.NullRef? || obj.OtherClass? ==> !r
      ensures obj.Element? && obj.element != this ==> (r <==> EqualFields(rule, Fields(), obj.element.Fields()))
    {
      match obj
      case NullRef => false
      case OtherClass => false
      case Element(e) => e == this || EqualFields(rule, Fields(), e.Fields())
    }
  }
}
