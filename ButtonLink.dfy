/** `ButtonLink`: one activatable element that looks the same whether it
    navigates to a destination or runs a selection handler. Without a usable
    destination, or when disabled, it is an anchor with an empty `href` whose
    click handler prevents the page reload and selects unless disabled;
    otherwise it is a router link to the destination. Both forms select on a
    plain Enter key press unless disabled. */
module ButtonLink {

  import opened Wrappers
  import opened Strings
  import opened Seqs
  import opened Classes

  /** The fields of a keyboard event the component reads. */
  datatype KeyEvent = KeyEvent(key: string, ctrlKey: bool, shiftKey: bool, metaKey: bool, altKey: bool)

  /** A history location descriptor: a path string (falsy when empty) or a
      location object (always truthy). */
  datatype LocationDescriptor = Path(path: string) | LocationObject(pathname: string)

  /** The props the component reads; `undefined` is `None`, and an absent
      `className`/`disabledClassName` is the empty string. */
  datatype Props = Props(className: string, to: Option<LocationDescriptor>, disabled: bool,
                         disabledClassName: string, pressed: Option<bool>, tooltip: Option<string>,
                         tabIndex: Option<int>, id: Option<string>)

  /** What a handler does when an event reaches it. */
  datatype Effect = PreventDefault | Select

  /** What a handler does, and what it returns (`Some(false)` for an explicit
      `return false`, `None` for the selection handler's own result). */
  datatype Outcome = Outcome(effects: seq<Effect>, returned: Option<bool>)

  /** The handlers the rendered element can carry. */
  datatype Handler = HandleClick | OnSelect | HandleKeyPress

  /** The two forms of the rendered element. */
  datatype Form = Anchor | RouterLink(to: LocationDescriptor)

  /** The rendered element's attributes. */
  datatype Element = Element(form: Form, href: Option<string>, className: string, tooltip: Option<string>,
                             ariaLabel: Option<string>, role: Option<string>, ariaPressed: Option<bool>,
                             tabIndex: int, onClick: Handler, onAuxClick: Option<Handler>,
                             onKeyPress: Handler, id: Option<string>, disabled: bool)

  /** JavaScript truthiness of the optional destination. */
  predicate HasDestination(to: Option<LocationDescriptor>)
  {
    match to
    case None => false
    case Some(Path(p)) => p != ""
    case Some(LocationObject(_)) => true
  }

  /** `isSelectKeyPress`: Enter with no modifier held. */
  predicate IsSelectKeyPress(e: KeyEvent)
  {
    e.key == "Enter" && !e.ctrlKey && !e.shiftKey && !e.metaKey && !e.altKey
  }

  /** `handleKeyPress`: selects on a select key press unless disabled. */
  function OnKeyPress(p: Props, e: KeyEvent): (effects: seq<Effect>)
    ensures Select in effects <==> !p.disabled && IsSelectKeyPress(e)
    ensures PreventDefault !in effects && |effects| <= 1
  {
    if !p.disabled && IsSelectKeyPress(e) then [Select] else []
  }

  /** `handleClick`: always prevents the default navigation of the empty
      `href` first; then returns `false` when disabled and selects otherwise. */
  function OnClick(p: Props): (o: Outcome)
    ensures |o.effects| >= 1 && o.effects[0] == PreventDefault
    ensures Select in o.effects <==> !p.disabled
    ensures o.returned == Some(false) <==> p.disabled
  {
    if p.disabled then Outcome([PreventDefault], Some(false)) else Outcome([PreventDefault, Select], None)
  }

  /** The class arguments: the caller's class, then `disabled` and the
      disabled class when disabled. */
  function ClassArgs(p: Props): (args: seq<string>)
    ensures |args| >= 1 && args[0] == p.className
    ensures |args| > 1 <==> p.disabled
    ensures p.disabled ==> "disabled" in args && p.disabledClassName in args
  {
    [p.className] + (if p.disabled then ["disabled", p.disabledClassName] else [])
  }

  /** The rendered element (the `rest` props spread over it are not modelled). */
  function Render(p: Props): (el: Element)
    ensures el.form.Anchor? <==> !HasDestination(p.to) || p.disabled
    ensures el.form.RouterLink? ==> Some(el.form.to) == p.to && !p.disabled
    ensures el.form.Anchor? ==> el.href == Some("") && el.onClick == HandleClick && el.onAuxClick == Some(HandleClick)
    ensures el.form.RouterLink? ==> el.onClick == OnSelect && el.onAuxClick.None?
    ensures el.onKeyPress == HandleKeyPress
    ensures el.tabIndex == if p.tabIndex.Some? then p.tabIndex.value else if p.disabled then -1 else 0
    ensures el.role == Some("button") <==> el.form.Anchor? || p.pressed.Some?
    ensures el.role.None? <==> el.form.RouterLink? && p.pressed.None?
    ensures el.ariaPressed == p.pressed && el.ariaLabel == p.tooltip && el.tooltip == p.tooltip
    ensures el.disabled == p.disabled && el.id == p.id
    ensures el.className == ClassNames(ClassArgs(p))
  {
    var tabIndex := if p.tabIndex.Some? then p.tabIndex.value else if p.disabled then -1 else 0;
    var common := Element(Anchor, None, ClassNames(ClassArgs(p)), p.tooltip, p.tooltip,
                          if p.pressed.Some? then Some("button") else None, p.pressed,
                          tabIndex, OnSelect, None, HandleKeyPress, p.id, p.disabled);
    if !HasDestination(p.to) || p.disabled then
      common.(form := Anchor, href := Some(""), onClick := HandleClick, onAuxClick := Some(HandleClick),
              role := Some("button"))
    else
      common.(form := RouterLink(p.to.value))
  }

  /** What the element's own click handler does (the router link's
      navigation is the link's own behaviour and is not modelled). */
  function Click(el: Element, p: Props): (o: Outcome)
    ensures el.onClick == OnSelect ==> o.effects == [Select]
    ensures el.onClick == HandleClick ==> o == OnClick(p)
  {
    match el.onClick
    case HandleClick => OnClick(p)
    case OnSelect => Outcome([Select], None)
    case HandleKeyPress => Outcome([], None)
  }

  /** What the element does on a key press. */
  function KeyPress(el: Element, p: Props, e: KeyEvent): (effects: seq<Effect>)
    ensures el.onKeyPress == HandleKeyPress ==> effects == OnKeyPress(p, e)
  {
    if el.onKeyPress == HandleKeyPress then OnKeyPress(p, e) else []
  }

  /** Disabled suppresses selection on every path: a click or an auxiliary
      click only prevents the default action, and no key press selects. */
  lemma DisabledNeverSelects(p: Props, e: KeyEvent)
    requires p.disabled
    ensures Click(Render(p), p) == Outcome([PreventDefault], Some(false))
    ensures Render(p).onAuxClick == Some(HandleClick)
    ensures KeyPress(Render(p), p, e) == []
  {
  }

  /** An enabled element selects exactly once per click, and once per key
      press that is a plain Enter, in both forms. */
  lemma EnabledSelectsOnce(p: Props, e: KeyEvent)
    requires !p.disabled
    ensures multiset(Click(Render(p), p).effects)[Select] == 1
    ensures KeyPress(Render(p), p, e) == if IsSelectKeyPress(e) then [Select] else []
  {
  }

  /** A modifier held with Enter never selects. */
  lemma ModifiedEnterNeverSelects(p: Props, e: KeyEvent)
    requires e.key == "Enter" && (e.ctrlKey || e.shiftKey || e.metaKey || e.altKey)
    ensures Select !in KeyPress(Render(p), p, e)
  {
  }

  /** The `disabled` class is applied exactly when disabled (given that the
      caller's class is a single class name other than `disabled`); an
      enabled element carries exactly the caller's class. */
  lemma DisabledClass(p: Props)
    requires ' ' !in p.className && ' ' !in p.disabledClassName && p.className != "disabled"
    ensures "disabled" in Split(Render(p).className, ' ') <==> p.disabled
    ensures !p.disabled ==> Render(p).className == p.className
  {
    var args := ClassArgs(p);
    if p.disabled {
      assert args[1] == "disabled";
      ClassNamesSplit(args);
      FilterMembership(args, Given);
    } else {
      ClassNamesSingle(p.className);
      if p.className != "" {
        ClassNamesSplit(args);
        FilterMembership(args, Given);
      } else {
        assert Split("", ' ') == [""];
      }
    }
  }
}
