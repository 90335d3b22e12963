/** How the element reflects its two observed attributes. `paid-user` toggles
    the `paid-user` class on the host container (which hides the upgrade
    call-to-action); a truthy `user-name` replaces the login link by the
    account menu showing that name. Both handlers look their elements up in
    the shadow root and do nothing while it is still empty, that is before
    the element is first connected and its markup rendered. */
module Identity {
  import opened Common

  /** `getAttribute('paid-user') === 'true'`; an absent attribute is `null`. */
  function IsPaid(attr: Option<string>): (r: bool)
    ensures r <==> attr == Some("true")
  {
    attr.Some? && attr.value == "true"
  }

  /** JavaScript truthiness of the new `user-name` value: not `null`, not empty. */
  predicate Truthy(name: Option<string>) {
    name.Some? && name.value != ""
  }

  /** The rendered chrome: the host's `paid-user` class, whether the login
      link and the account menu are displayed, and `#account-name`'s text. */
  datatype Chrome = Chrome(paid: bool, loginShown: bool, accountShown: bool, accountName: string)

  /** The chrome as the markup renders it. */
  const Rendered: Chrome := Chrome(false, true, false, "")

  function ApplyPaid(c: Chrome, attr: Option<string>): (r: Chrome)
    ensures r.paid == IsPaid(attr)
    ensures r.(paid := c.paid) == c
  {
    c.(paid := IsPaid(attr))
  }

  /** `_applyUserName`: exactly one of the login link and the account menu is
      displayed; a falsy name leaves the old name in the hidden menu. */
  function ApplyUserName(c: Chrome, name: Option<string>): (r: Chrome)
    ensures r.loginShown == !Truthy(name) && r.accountShown == Truthy(name)
    ensures r.accountName == if Truthy(name) then name.value else c.accountName
    ensures r.paid == c.paid
  {
    if Truthy(name) then c.(loginShown := false, accountShown := true, accountName := name.value)
    else c.(loginShown := true, accountShown := false)
  }

  /** The element's two attributes and its chrome, absent until rendered. */
  datatype Element = Element(paidAttr: Option<string>, nameAttr: Option<string>, chrome: Option<Chrome>)

  const Created: Element := Element(None, None, None)

  datatype Event = SetPaid(value: Option<string>) | SetName(value: Option<string>) | Connected

  /** `attributeChangedCallback` for the two attributes, and
      `connectedCallback`, which renders the markup and applies `paid-user`
      only. */
  function Step(el: Element, e: Event): (r: Element)
    ensures e.SetPaid? ==> r.paidAttr == e.value && r.nameAttr == el.nameAttr
    ensures e.SetName? ==> r.nameAttr == e.value && r.paidAttr == el.paidAttr
    ensures !e.Connected? ==> (r.chrome.Some? <==> el.chrome.Some?)
    ensures e.SetPaid? && r.chrome.Some? ==> r.chrome.value.paid == IsPaid(e.value)
    ensures e.SetName? && r.chrome.Some? ==>
      r.chrome.value.loginShown == !Truthy(e.value) && r.chrome.value.accountShown == Truthy(e.value)
    ensures e.Connected? ==> r == el.(chrome := Some(Rendered.(paid := IsPaid(el.paidAttr))))
  {
    match e
    case SetPaid(v) =>
      el.(paidAttr := v, chrome := if el.chrome.Some? then Some(ApplyPaid(el.chrome.value, v)) else None)
    case SetName(v) =>
      el.(nameAttr := v, chrome := if el.chrome.Some? then Some(ApplyUserName(el.chrome.value, v)) else None)
    case Connected =>
      el.(chrome := Some(ApplyPaid(Rendered, el.paidAttr)))
  }

  function Run(el: Element, evs: seq<Event>): Element
    decreases |evs|
  {
    if evs == [] then el else Run(Step(el, evs[0]), evs[1..])
  }

  /** Once rendered, the paid class always agrees with the current value of
      the attribute, whatever the order of changes and connections. */
  ghost predicate PaidReflected(el: Element) {
    el.chrome.Some? ==> el.chrome.value.paid == IsPaid(el.paidAttr)
  }

  lemma {:induction false} PaidAlwaysReflected(el: Element, evs: seq<Event>)
    requires PaidReflected(el)
    ensures PaidReflected(Run(el, evs))
    decreases |evs|
  {
    if evs != [] {
      PaidAlwaysReflected(Step(el, evs[0]), evs[1..]);
    }
  }

  predicate NoNameOrConnect(evs: seq<Event>) {
    forall i :: 0 <= i < |evs| ==> evs[i].SetPaid?
  }

  /** After a change of `user-name` on a rendered element, the chrome shows
      that value until the next change of it or the next connection. */
  lemma {:induction false} NameShownUntilChanged(el: Element, v: Option<string>, evs: seq<Event>)
    requires el.chrome.Some? && NoNameOrConnect(evs)
    ensures Run(el, [SetName(v)] + evs).chrome.Some?
    ensures Run(el, [SetName(v)] + evs).chrome.value.loginShown == !Truthy(v)
    ensures Run(el, [SetName(v)] + evs).chrome.value.accountShown == Truthy(v)
    ensures Truthy(v) ==> Run(el, [SetName(v)] + evs).chrome.value.accountName == v.value
    decreases |evs|
  {
    var named := Step(el, SetName(v));
    assert ([SetName(v)] + evs)[0] == SetName(v) && ([SetName(v)] + evs)[1..] == evs;
    ChromeNamesKept(named, evs);
  }

  lemma {:induction false} ChromeNamesKept(el: Element, evs: seq<Event>)
    requires el.chrome.Some? && NoNameOrConnect(evs)
    ensures Run(el, evs).chrome.Some?
    ensures Run(el, evs).chrome.value.(paid := el.chrome.value.paid) == el.chrome.value
    decreases |evs|
  {
    if evs != [] {
      assert evs[0].SetPaid?;
      ChromeNamesKept(Step(el, evs[0]), evs[1..]);
    }
  }

  /** A `user-name` given before the element is connected is never shown:
      the change hits the empty shadow root and the connection does not
      apply it, so the login link stays up. */
  lemma NameBeforeConnectNotShown(name: string)
    requires name != ""
    ensures Run(Created, [SetName(Some(name)), Connected]).chrome == Some(Rendered)
  {
    var evs := [SetName(Some(name)), Connected];
    assert evs[1..] == [Connected] && evs[1..][1..] == [];
    var named := Step(Created, SetName(Some(name)));
    assert named.chrome == None && named.paidAttr == None;
    assert Run(named, [Connected]) == Step(named, Connected);
    assert Run(Created, evs) == Run(named, [Connected]);
  }

  /** The attributes and the rendered chrome of the desktop element. */
  class Host {
    var paidAttr: Option<string>
    var nameAttr: Option<string>
    var paid: bool
    var loginShown: bool
    var accountShown: bool
    var accountName: string

    ghost function Model(): Element
      reads this
    {
      Element(paidAttr, nameAttr, Some(Chrome(paid, loginShown, accountShown, accountName)))
    }

    /** Construction with the attributes the page gave before connection,
        then the connection. */
    constructor (paidAttr0: Option<string>, nameAttr0: Option<string>)
      ensures Model() == Run(Created, [SetPaid(paidAttr0), SetName(nameAttr0), Connected])
    {
      paidAttr, nameAttr := paidAttr0, nameAttr0;
      paid := IsPaid(paidAttr0);
      loginShown, accountShown, accountName := true, false, "";
      ghost var evs := [SetPaid(paidAttr0), SetName(nameAttr0), Connected];
      assert evs[1..] == [SetName(nameAttr0), Connected] && evs[1..][1..] == [Connected] && evs[1..][1..][1..] == [];
      ghost var s1 := Step(Created, SetPaid(paidAttr0));
      ghost var s2 := Step(s1, SetName(nameAttr0));
      assert s2 == Element(paidAttr0, nameAttr0, None);
      assert Run(s2, [Connected]) == Step(s2, Connected);
      assert Run(s1, evs[1..]) == Run(s2, [Connected]);
    }

    method SetPaidUser(v: Option<string>)
      modifies this
      ensures Model() == Step(old(Model()), SetPaid(v))
    {
      paidAttr := v;
      paid := IsPaid(v);
    }

    method SetUserName(v: Option<string>)
      modifies this
      ensures Model() == Step(old(Model()), SetName(v))
    {
      nameAttr := v;
      if v.Some? && v.value != "" {
        loginShown := false;
        accountShown := true;
        accountName := v.value;
      } else {
        loginShown := true;
        accountShown := false;
      }
    }
  }
}
