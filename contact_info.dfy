/** The contact section: the displayed e-mail address with its `mailto:` link
    and the Instagram handle with its profile link, each resolved from an
    optional `contactInfo` record with `?.` and `||`. */
module ContactInfo {
  import opened JsValues

  /** `content.contactInfo`; either field may be missing. */
  datatype Contact = Contact(email: Option<string>, instagram: Option<string>)

  const DefaultEmail: string := "contact@hackathon2024.com"
  const DefaultInstagram: string := "hackathon2024"
  const MailtoScheme: string := "mailto:"
  const InstagramBase: string := "https://instagram.com/"

  /** `content.contactInfo?.email` */
  function EmailField(info: Option<Contact>): (f: Option<string>)
    ensures info.None? ==> f.None?
    ensures info.Some? ==> f == info.value.email
  {
    if info.Some? then info.value.email else None
  }

  /** `content.contactInfo?.instagram` */
  function InstagramField(info: Option<Contact>): (f: Option<string>)
    ensures info.None? ==> f.None?
    ensures info.Some? ==> f == info.value.instagram
  {
    if info.Some? then info.value.instagram else None
  }

  /** The text of the e-mail link. */
  function EmailLabel(info: Option<Contact>): (e: string)
    ensures e != ""
    ensures info.Some? && Truthy(info.value.email) ==> e == info.value.email.value
    ensures info.None? || !Truthy(info.value.email) ==> e == DefaultEmail
  {
    Or(EmailField(info), DefaultEmail)
  }

  /** The `href` of the e-mail link: the scheme followed by exactly the text
      shown (the source evaluates the fallback expression a second time). */
  function MailtoHref(info: Option<Contact>): (h: string)
    ensures StartsWith(h, MailtoScheme)
    ensures h[|MailtoScheme|..] == EmailLabel(info)
  {
    MailtoScheme + Or(EmailField(info), DefaultEmail)
  }

  /** The Instagram handle used by both the link and its label. */
  function Handle(info: Option<Contact>): (h: string)
    ensures h != ""
    ensures info.Some? && Truthy(info.value.instagram) ==> h == info.value.instagram.value
    ensures info.None? || !Truthy(info.value.instagram) ==> h == DefaultInstagram
  {
    Or(InstagramField(info), DefaultInstagram)
  }

  /** The `href` of the Instagram link. */
  function ProfileHref(info: Option<Contact>): (h: string)
    ensures StartsWith(h, InstagramBase)
    ensures h[|InstagramBase|..] == Handle(info)
  {
    InstagramBase + Or(InstagramField(info), DefaultInstagram)
  }

  /** The text of the Instagram link, `@` and the handle. */
  function ProfileLabel(info: Option<Contact>): (l: string)
    ensures |l| >= 2 && l[0] == '@'
    ensures l[1..] == Handle(info)
  {
    "@" + Or(InstagramField(info), DefaultInstagram)
  }

  /** The label and the link of each item always carry the same resolved value,
      so one can be recovered from the other. */
  lemma LinksAgreeWithLabels(info: Option<Contact>)
    ensures MailtoHref(info) == MailtoScheme + EmailLabel(info)
    ensures ProfileHref(info) == InstagramBase + ProfileLabel(info)[1..]
  {
  }

  /** A wholly missing `contactInfo` yields both defaults, without failure. */
  lemma MissingContactUsesDefaults()
    ensures EmailLabel(None) == "contact@hackathon2024.com"
    ensures MailtoHref(None) == "mailto:contact@hackathon2024.com"
    ensures ProfileHref(None) == "https://instagram.com/hackathon2024"
    ensures ProfileLabel(None) == "@hackathon2024"
  {
    assert EmailField(None) == None && InstagramField(None) == None;
    assert MailtoScheme + DefaultEmail == "mailto:contact@hackathon2024.com";
    assert InstagramBase + DefaultInstagram == "https://instagram.com/hackathon2024";
    assert "@" + DefaultInstagram == "@hackathon2024";
  }

  /** An empty string is falsy, so it falls back exactly like a missing field. */
  lemma EmptyFieldsFallBack(other: Option<string>)
    ensures EmailLabel(Some(Contact(Some(""), other))) == DefaultEmail
    ensures Handle(Some(Contact(other, Some("")))) == DefaultInstagram
  {
  }

  /** The shipped `content.contactInfo` record. */
  const ShippedContact: Option<Contact> :=
    Some(Contact(Some("counterspell@hackit.tw"), Some("hackit.tw")))

  lemma ShippedContactResolves()
    ensures EmailLabel(ShippedContact) == "counterspell@hackit.tw"
    ensures MailtoHref(ShippedContact) == "mailto:counterspell@hackit.tw"
    ensures Handle(ShippedContact) == "hackit.tw"
    ensures ProfileHref(ShippedContact) == "https://instagram.com/hackit.tw"
    ensures ProfileLabel(ShippedContact) == "@hackit.tw"
  {
    var email, handle := "counterspell@hackit.tw", "hackit.tw";
    assert EmailField(ShippedContact) == Some(email) && email != "";
    assert InstagramField(ShippedContact) == Some(handle) && handle != "";
    assert MailtoScheme + email == "mailto:counterspell@hackit.tw";
    assert InstagramBase + handle == "https://instagram.com/hackit.tw";
    assert "@" + handle == "@hackit.tw";
  }
}
