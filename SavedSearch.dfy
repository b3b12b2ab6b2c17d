/** The saved-search form of the editor extension's search panel: its field
    values start from the optional defaults, every bound input rewrites one
    field, submitting hands the values to the caller, and the sections and
    warnings it shows follow from the props and the current values. */
module SavedSearch {

  import opened Wrappers
  import opened Strings

  /** The keys of `SavedQueryFields`. */
  datatype Field = Id | Description | Query | Notify | NotifySlack | SlackWebhookURL

  /** A field value: a string, a boolean, or `null` (only the Slack webhook
      URL may be `null`). */
  datatype Value = Text(text: string) | Flag(flag: bool) | Null

  /** The form state: an object keyed by field names. */
  type Values = map<Field, Value>

  /** The fields the form keeps (every field but the id). */
  const FormFields: set<Field> := {Description, Query, Notify, NotifySlack, SlackWebhookURL}

  const TypeDiff := "type:diff"
  const TypeCommit := "type:commit"

  /** JavaScript truthiness of a field value. */
  predicate Truthy(v: Value)
  {
    match v
    case Text(s) => s != ""
    case Flag(b) => b
    case Null => false
  }

  /** A text field holds a string, a switch a boolean. */
  predicate IsSwitch(f: Field)
  {
    f == Notify || f == NotifySlack
  }

  /** The fallback of `|| ''` and `|| false` in the initial state. */
  function Fallback(f: Field): (v: Value)
    ensures !Truthy(v)
    ensures IsSwitch(f) ==> v == Flag(false)
    ensures !IsSwitch(f) ==> v == Text("")
  {
    if IsSwitch(f) then Flag(false) else Text("")
  }

  /** The form holds every form field, a boolean in each switch and a string
      in each other field. */
  predicate WellTyped(values: Values)
  {
    forall f :: f in FormFields ==> f in values && (if IsSwitch(f) then values[f].Flag? else values[f].Text?)
  }

  /** The initial state: each form field takes its default when that is
      truthy, and its fallback otherwise. */
  function InitialValues(defaults: Option<Values>): (v: Values)
    ensures v.Keys == FormFields
    ensures forall f :: f in v && Truthy(v[f]) ==> defaults.Some? && f in defaults.value && defaults.value[f] == v[f]
    ensures forall f :: f in v && !Truthy(v[f]) ==> v[f] == Fallback(f)
    ensures forall f :: f in v && defaults.Some? && f in defaults.value && Truthy(defaults.value[f]) ==> v[f] == defaults.value[f]
  {
    map f | f in FormFields :: if defaults.Some? && f in defaults.value && Truthy(defaults.value[f]) then defaults.value[f] else Fallback(f)
  }

  /** Defaults of the right types give a well-typed form. */
  lemma InitialWellTyped(defaults: Option<Values>)
    requires defaults.Some? ==> forall f :: f in FormFields && f in defaults.value && Truthy(defaults.value[f]) ==>
                                          if IsSwitch(f) then defaults.value[f].Flag? else defaults.value[f].Text?
    ensures WellTyped(InitialValues(defaults))
  {
  }

  /** Starting again from the initial state gives the same state. */
  lemma InitialIdempotent(defaults: Option<Values>)
    ensures InitialValues(Some(InitialValues(defaults))) == InitialValues(defaults)
  {
    var v := InitialValues(defaults);
    var w := InitialValues(Some(v));
    assert forall f :: f in w ==> w[f] == v[f];
  }

  /** The `value`, `checked` and `type` of the input that changed. */
  datatype InputTarget = InputTarget(value: string, checked: bool, inputType: string)

  /** The state after an input bound to `key` changed: that field holds the
      input's checked state for a checkbox and its text otherwise, and every
      other field is unchanged. */
  function Changed(values: Values, key: Field, target: InputTarget): (r: Values)
    ensures r.Keys == values.Keys + {key}
    ensures r[key] == if target.inputType == "checkbox" then Flag(target.checked) else Text(target.value)
    ensures forall f :: f in values && f != key ==> r[f] == values[f]
  {
    values[key := if target.inputType == "checkbox" then Flag(target.checked) else Text(target.value)]
  }

  /** The inputs the form binds, with their types: the description and the
      query are text inputs, the email switch is a checkbox, the Slack
      webhook URL a (disabled) text input. */
  const Bindings: map<Field, string> := map[Description := "text", Query := "text", Notify := "checkbox", SlackWebhookURL := "text"]

  /** Changes coming from the bound inputs keep the form well typed, and
      none of them ever touch the Slack switch or add an id. */
  lemma BoundChangeWellTyped(values: Values, key: Field, target: InputTarget)
    requires WellTyped(values)
    requires key in Bindings && target.inputType == Bindings[key]
    ensures WellTyped(Changed(values, key, target))
    ensures NotifySlack in values && Changed(values, key, target)[NotifySlack] == values[NotifySlack]
    ensures Id in Changed(values, key, target) <==> Id in values
  {
  }

  /** `isUnsupportedNotifyQuery`: some notification is on and the query
      asks for neither diffs nor commits. */
  function IsUnsupportedNotifyQuery(values: Values): (r: bool)
    requires WellTyped(values)
    ensures r <==> (values[Notify].flag || values[NotifySlack].flag) &&
                   (forall i :: !OccursAt(values[Query].text, TypeDiff, i)) &&
                   (forall i :: !OccursAt(values[Query].text, TypeCommit, i))
  {
    ContainsIff(values[Query].text, TypeDiff);
    ContainsIff(values[Query].text, TypeCommit);
    (values[Notify].flag || values[NotifySlack].flag) &&
    !Contains(values[Query].text, TypeDiff) && !Contains(values[Query].text, TypeCommit)
  }

  /** The props the rendering reads. */
  datatype FormProps = FormProps(authenticated: bool, defaults: Option<Values>, loading: bool, hasError: bool)

  /** Which parts of the form are shown, and whether submitting is disabled. */
  datatype FormView = FormView(emailSection: bool, slackSection: bool, unsupportedWarning: bool,
                               emailWarning: bool, contactAdmin: bool, submitDisabled: bool,
                               errorAlert: bool, monitoringPromo: bool)

  /** The rendered form. The email section and the code-monitoring promotion
      follow the default values, not the current ones, and exactly one of
      them is shown. */
  function View(props: FormProps, values: Values): (v: FormView)
    requires WellTyped(values)
    ensures v.emailSection <==> props.defaults.Some? && Notify in props.defaults.value && Truthy(props.defaults.value[Notify])
    ensures v.emailSection != v.monitoringPromo
    ensures v.slackSection <==> values[NotifySlack].flag && Truthy(values[SlackWebhookURL])
    ensures v.unsupportedWarning <==> IsUnsupportedNotifyQuery(values)
    ensures v.emailWarning <==> values[Notify].flag && !v.unsupportedWarning
    ensures v.contactAdmin <==> v.emailWarning && props.authenticated
    ensures v.submitDisabled == props.loading
    ensures v.errorAlert <==> props.hasError && !props.loading
  {
    var email := props.defaults.Some? && Notify in props.defaults.value && Truthy(props.defaults.value[Notify]);
    var unsupported := IsUnsupportedNotifyQuery(values);
    var emailWarning := values[Notify].flag && !unsupported;
    FormView(email, values[NotifySlack].flag && Truthy(values[SlackWebhookURL]), unsupported, emailWarning,
             emailWarning && props.authenticated, props.loading, props.hasError && !props.loading, !email)
  }

  /** With email notifications on, exactly one of the two warnings is shown;
      with every notification off, neither is. */
  lemma WarningsExclusive(props: FormProps, values: Values)
    requires WellTyped(values)
    ensures values[Notify].flag ==> View(props, values).unsupportedWarning != View(props, values).emailWarning
    ensures !values[Notify].flag && !values[NotifySlack].flag ==>
      !View(props, values).unsupportedWarning && !View(props, values).emailWarning
  {
  }

  /** A query that mentions `type:diff` or `type:commit` is never warned
      about. */
  lemma CommitQuerySupported(props: FormProps, values: Values, i: int)
    requires WellTyped(values)
    requires OccursAt(values[Query].text, TypeDiff, i) || OccursAt(values[Query].text, TypeCommit, i)
    ensures !View(props, values).unsupportedWarning
  {
  }

  /** Editing an input never shows or hides the email section or the
      promotion. */
  lemma EmailSectionFixed(props: FormProps, values: Values, key: Field, target: InputTarget)
    requires WellTyped(values) && key in Bindings && target.inputType == Bindings[key]
    ensures WellTyped(Changed(values, key, target))
    ensures View(props, Changed(values, key, target)).emailSection == View(props, values).emailSection
    ensures View(props, Changed(values, key, target)).monitoringPromo == View(props, values).monitoringPromo
  {
    BoundChangeWellTyped(values, key, target);
  }

  /** What submitting does. */
  datatype SubmitEffect = PreventDefault | Submit(fields: Values)

  /** The form's state over its lifetime. */
  class SavedSearchForm {
    var values: Values

    constructor(defaults: Option<Values>)
      ensures values == InitialValues(defaults)
    {
      values := InitialValues(defaults);
    }

    /** The change handler an input bound to `key` calls. */
    method OnInputChange(key: Field, target: InputTarget)
      modifies this
      ensures values == Changed(old(values), key, target)
    {
      values := values[key := if target.inputType == "checkbox" then Flag(target.checked) else Text(target.value)];
    }

    /** `handleSubmit`: prevents the form's default submission, then hands
        the current values to `onSubmit`; the state is not changed. */
    method HandleSubmit() returns (effects: seq<SubmitEffect>)
      ensures effects == [PreventDefault, Submit(values)]
    {
      effects := [PreventDefault, Submit(values)];
    }
  }
}
