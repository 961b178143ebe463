/** The decision table shared by `evaluateFlag` and `isFlagEnabled`: a
    found, enabled flag is on, and with a context it is on only for a
    customer the flag admits. */
module FlagDecision {
  import opened Wrappers
  import opened FeatureFlagModel

  /** Whether a flag with this `customers` member admits `customerId`. An
      absent list admits everyone; a present list, even an empty one, admits
      exactly its elements (an array is truthy in JavaScript whatever its
      length). */
  predicate Admits(customers: Option<seq<string>>, customerId: string): (ok: bool)
    ensures customers.None? ==> ok
    ensures customers == Some([]) ==> !ok
    ensures customers.Some? ==>
              (ok <==> exists i :: 0 <= i < |customers.value| && customers.value[i] == customerId)
  {
    customers.None? || customerId in customers.value
  }

  /** The boolean a found-or-absent flag evaluates to in an optional context. */
  function Decide(flag: Option<Flag>, context: Option<Context>): (on: bool)
    ensures on ==> flag.Some? && flag.value.enabled
  {
    && flag.Some?
    && flag.value.enabled
    && (context.None? || Admits(flag.value.customers, context.value.customerId))
  }

  /** An absent flag is off. */
  lemma AbsentFlagIsOff(context: Option<Context>)
    ensures !Decide(None, context)
  {
  }

  /** `enabled = false` is a hard override: the customer list and the
      context do not matter. */
  lemma DisabledFlagIsOff(flag: Flag, context: Option<Context>)
    requires !flag.enabled
    ensures !Decide(Some(flag), context)
  {
  }

  /** Without a context an enabled flag is on, whatever its customer list. */
  lemma NoContextIsOn(flag: Flag)
    requires flag.enabled
    ensures Decide(Some(flag), None)
  {
  }

  /** An enabled flag without a `customers` member is on for every context. */
  lemma NoCustomerListIsOn(flag: Flag, context: Option<Context>)
    requires flag.enabled && flag.customers.None?
    ensures Decide(Some(flag), context)
  {
  }

  /** With a customer list and a context, an enabled flag is on exactly when
      the customer id is an element of the list. */
  lemma CustomerListIsExactMembership(flag: Flag, customers: seq<string>, context: Context)
    requires flag.enabled && flag.customers == Some(customers)
    ensures Decide(Some(flag), Some(context)) <==> context.customerId in customers
  {
  }

  /** An empty customer list is not an absent one: with a context, the first
      turns an enabled flag off and the second leaves it on. */
  lemma EmptyListIsNotAbsentList(context: Context)
    ensures !Decide(Some(Flag(true, Some([]))), Some(context))
    ensures Decide(Some(Flag(true, None)), Some(context))
  {
  }

  /** A context can only turn a result off: on in a context implies on
      without one. */
  lemma ContextOnlyRestricts(flag: Option<Flag>, context: Context)
    ensures Decide(flag, Some(context)) ==> Decide(flag, None)
  {
  }
}
