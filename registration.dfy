/** The registration section: the body text and the routing decision of the
    "open registration form" button. The click's effect is returned as a
    value; nothing scrolls or navigates here. */
module Registration {
  import opened JsValues

  /** `sectionRefs.registration`: either no ref object at all (`sectionRefs`
      or `sectionRefs.registration` is undefined or null, so reading `.current`
      throws), or a ref object whose `current` element is mounted or not. */
  datatype RegistrationRef = NoRefObject | RefObject(mounted: bool)

  /** What one click does. `Thrown` is the TypeError raised by reading
      `.current` of an undefined `sectionRefs.registration`. */
  datatype Action =
    | NoAction
    | ScrollToRegistration
    | Navigate(url: string)
    | Thrown

  /** `content.participantInfo`, as far as this section reads it. */
  datatype ParticipantInfo = ParticipantInfo(registrationProcess: Option<string>)

  const NotYetUpdated: string := "報名流程資訊尚未更新。"
  const Anchor: string := "#"

  /** The click handler's decision, from `content.registrationPath` and the ref. */
  function OnClick(path: Option<string>, reg: RegistrationRef): (a: Action)
    ensures !Truthy(path) ==> a == NoAction
    ensures Truthy(path) && !StartsWith(path.value, Anchor) ==> a == Navigate(path.value)
    ensures Truthy(path) && StartsWith(path.value, Anchor) ==>
              a == match reg
                   case NoRefObject => Thrown
                   case RefObject(mounted) =>
                     if mounted then ScrollToRegistration else Navigate(path.value)
  {
    if Truthy(path) then
      var p := path.value;
      // `&&` only reads `sectionRefs.registration.current` for a `#` path
      if StartsWith(p, Anchor) then
        match reg
        case NoRefObject => Thrown
        case RefObject(mounted) => if mounted then ScrollToRegistration else Navigate(p)
      else
        Navigate(p)
    else
      NoAction
  }

  /** The paragraph shown above the button. */
  function RegistrationText(info: Option<ParticipantInfo>): (t: string)
    ensures t != ""
    ensures info.Some? && Truthy(info.value.registrationProcess) ==>
              t == info.value.registrationProcess.value
    ensures info.None? || !Truthy(info.value.registrationProcess) ==> t == NotYetUpdated
  {
    Or(if info.Some? then info.value.registrationProcess else None, NotYetUpdated)
  }

  /** Scrolling happens exactly for a non-empty `#` path with a mounted
      registration section; it never comes with a navigation. */
  lemma ScrollIff(path: Option<string>, reg: RegistrationRef)
    ensures OnClick(path, reg) == ScrollToRegistration <==>
              Truthy(path) && StartsWith(path.value, Anchor) && reg == RefObject(true)
  {
  }

  /** A navigation always goes to the configured path itself, verbatim. */
  lemma NavigateIsVerbatim(path: Option<string>, reg: RegistrationRef, url: string)
    requires OnClick(path, reg) == Navigate(url)
    ensures path == Some(url) && url != ""
    ensures !StartsWith(url, Anchor) || reg == RefObject(false)
  {
  }

  /** With a mounted registration section, every `#` path scrolls to it,
      whatever follows the `#`. */
  lemma FragmentIgnored(f: string, g: string)
    ensures OnClick(Some(Anchor + f), RefObject(true)) == OnClick(Some(Anchor + g), RefObject(true))
    ensures OnClick(Some(Anchor + f), RefObject(true)) == ScrollToRegistration
  {
  }

  /** The error path exists only for `#` paths: any other configured path
      never reads the ref. */
  lemma ThrowsOnlyForAnchor(path: Option<string>, reg: RegistrationRef)
    ensures OnClick(path, reg) == Thrown <==>
              Truthy(path) && StartsWith(path.value, Anchor) && reg.NoRefObject?
  {
  }

  /** The two routing scenarios: an in-page anchor and an external URL. */
  lemma RoutingScenarios(reg: RegistrationRef)
    ensures OnClick(Some("#registration"), RefObject(true)) == ScrollToRegistration
    ensures OnClick(Some("https://example.com/signup"), reg) == Navigate("https://example.com/signup")
    ensures OnClick(Some(""), reg) == NoAction && OnClick(None, reg) == NoAction
  {
    assert "#registration"[..1] == Anchor;
    assert "https://example.com/signup"[0] == 'h';
  }

  /** With the shipped content the button navigates to the sign-up page. */
  const ShippedPath: Option<string> := Some("http://counterspell.hackit.tw/signup")

  lemma ShippedButtonNavigates(reg: RegistrationRef)
    ensures OnClick(ShippedPath, reg) == Navigate("http://counterspell.hackit.tw/signup")
  {
    assert "http://counterspell.hackit.tw/signup"[0] == 'h';
  }
}
