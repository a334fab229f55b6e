/** The contact page: its `tel:` and `mailto:` links, social links and working-hours rows. */
module Contact {
  import opened Wrappers
  import opened Text
  import opened Seqs
  import opened Decimal
  import opened PersonalInfo
  import About
  import Localization

  /** `phone.replace(/\D/g, '')`: every character that is not an ASCII digit removed. */
  function StripNonDigits(s: string): (r: string)
    ensures AllDigits(r)
    ensures IsSubsequence(r, s)
    ensures forall c :: IsDigit(c) ==> multiset(r)[c] == multiset(s)[c]
    decreases |s|
  {
    if s == [] then []
    else
      var rest := StripNonDigits(s[1..]);
      assert s == [s[0]] + s[1..];
      if IsDigit(s[0]) then
        SubsequenceCons(s[0], rest, s[1..]);
        [s[0]] + rest
      else
        SubsequenceSkip(s[0], rest, s[1..]);
        rest
  }

  /** A string made only of digits comes out unchanged. */
  lemma {:induction false} StripDigitsOnly(s: string)
    requires AllDigits(s)
    ensures StripNonDigits(s) == s
    decreases |s|
  {
    if s != [] {
      StripDigitsOnly(s[1..]);
    }
  }

  /** Stripping twice is the same as stripping once. */
  lemma StripIdempotent(s: string)
    ensures StripNonDigits(StripNonDigits(s)) == StripNonDigits(s)
  {
    StripDigitsOnly(StripNonDigits(s));
  }

  /** The stripped text of a concatenation is the concatenation of the stripped parts. */
  lemma {:induction false} StripAppend(a: string, b: string)
    ensures StripNonDigits(a + b) == StripNonDigits(a) + StripNonDigits(b)
    decreases |a|
  {
    if a != [] {
      var ab := a + b;
      assert ab[0] == a[0] && ab[1..] == a[1..] + b;
      StripAppend(a[1..], b);
      if IsDigit(a[0]) {
        assert StripNonDigits(ab) == [a[0]] + StripNonDigits(a[1..] + b);
        assert StripNonDigits(a) == [a[0]] + StripNonDigits(a[1..]);
      } else {
        assert StripNonDigits(ab) == StripNonDigits(a[1..] + b);
        assert StripNonDigits(a) == StripNonDigits(a[1..]);
      }
    } else {
      assert a + b == b;
    }
  }

  /** The stripped phone is never longer than the phone as written. */
  lemma StripShortens(s: string)
    ensures |StripNonDigits(s)| <= |s|
  {
    SubsequenceLength(StripNonDigits(s), s);
  }

  const TelScheme := "tel:"
  const MailtoScheme := "mailto:"

  /** The phone link: `tel:` followed by the phone's digits. */
  function TelHref(phone: string): (r: string)
    ensures |r| >= |TelScheme| && r[..|TelScheme|] == TelScheme
    ensures AllDigits(r[|TelScheme|..])
    ensures IsSubsequence(r[|TelScheme|..], phone)
    ensures r == TelScheme + StripNonDigits(phone)
  {
    TelScheme + StripNonDigits(phone)
  }

  /** However the number is punctuated, the same digits give the same link. */
  lemma TelHrefIgnoresPunctuation(phone: string)
    ensures TelHref(phone) == TelHref(StripNonDigits(phone))
  {
    StripIdempotent(phone);
  }

  /** A phone written as bare digits is dialled exactly as written. */
  lemma TelHrefOfDigits(phone: string)
    requires AllDigits(phone)
    ensures TelHref(phone) == TelScheme + phone
  {
    StripDigitsOnly(phone);
  }

  /** The e-mail link: `mailto:` followed by the address as configured. */
  function MailtoHref(email: string): (r: string)
    ensures |r| == |MailtoScheme| + |email|
    ensures r[..|MailtoScheme|] == MailtoScheme
  {
    MailtoScheme + email
  }

  /** The address a `mailto:` link opens, or `None` for a link of another scheme. */
  function MailtoAddress(href: string): (r: Option<string>)
    ensures r.Some? <==> |href| >= |MailtoScheme| && href[..|MailtoScheme|] == MailtoScheme
    ensures r.Some? ==> href == MailtoScheme + r.value
  {
    if |href| >= |MailtoScheme| && href[..|MailtoScheme|] == MailtoScheme then Some(href[|MailtoScheme|..]) else None
  }

  /** The link opens the configured address, whatever it contains. */
  lemma MailtoRoundTrip(email: string)
    ensures MailtoAddress(MailtoHref(email)) == Some(email)
  {
    assert (MailtoScheme + email)[|MailtoScheme|..] == email;
  }

  /** One contact card: its translated title, the shown value and the link. */
  datatype ContactItem = ContactItem(title: string, value: string, href: string)

  const MapsLink := "https://maps.google.com"

  /** `contactInfo`: the e-mail, phone and location cards, in that order. */
  function ContactItems(c: ContactDetails, t: map<string, string>): (r: seq<ContactItem>)
    ensures |r| == 3
    ensures r[0].value == c.email && r[1].value == c.phone && r[2].value == c.location
    ensures MailtoAddress(r[0].href) == Some(c.email)
    ensures |r[1].href| >= |TelScheme| && r[1].href[..|TelScheme|] == TelScheme
    ensures r[1].href[|TelScheme|..] == StripNonDigits(c.phone)
    ensures r[1].href == TelHref(c.phone)
    ensures r[2].href == MapsLink
  {
    MailtoRoundTrip(c.email);
    [
      ContactItem(Localization.Translate(t, "contact.email"), c.email, MailtoHref(c.email)),
      ContactItem(Localization.Translate(t, "contact.phone"), c.phone, TelHref(c.phone)),
      ContactItem(Localization.Translate(t, "contact.location"), c.location, MapsLink)
    ]
  }

  /**
   * `socialLinks` on the contact page reads `.url` of all three networks
   * without a guard, so an unconfigured network throws.
   */
  function SocialHrefs(s: Social): (r: Eval<seq<About.SocialLink>>)
    ensures r.Throws? <==> s.github.None? || s.linkedin.None? || s.twitter.None?
    ensures r.Returns? ==> |r.value| == 3
  {
    if s.github.None? || s.linkedin.None? || s.twitter.None? then Throws
    else Returns([
      About.SocialLink(About.GitHub, s.github.value),
      About.SocialLink(About.LinkedIn, s.linkedin.value),
      About.SocialLink(About.Twitter, s.twitter.value)])
  }

  /** With every network configured, the contact page lists the same links as the about page. */
  lemma SocialHrefsMatchAbout(s: Social)
    requires s.github.Some? && s.linkedin.Some? && s.twitter.Some?
    ensures SocialHrefs(s) == Returns(About.SocialLinks(s))
  {
    assert About.LinkOf(s, About.GitHub) == [About.SocialLink(About.GitHub, s.github.value)];
    assert About.LinkOf(s, About.LinkedIn) == [About.SocialLink(About.LinkedIn, s.linkedin.value)];
    assert About.LinkOf(s, About.Twitter) == [About.SocialLink(About.Twitter, s.twitter.value)];
    var links := SocialHrefs(s).value;
    assert links == [links[0]] + [links[1]] + [links[2]];
  }

  /** One working-hours row: the translated day and its hours. */
  datatype HoursRow = HoursRow(day: string, hours: string)

  const WeekendKey := "contact.workingHours.weekend"
  const FlexibleKey := "contact.workingHours.flexible"

  /**
   * `workingHours`: Monday to Friday from `personalInfo.workingHours`, then
   * the weekend row with the translated "flexible" label. Reading a field of
   * an absent `workingHours` throws.
   */
  function WorkingHoursRows(info: Formatted, t: map<string, string>): (r: Eval<seq<HoursRow>>)
    ensures r.Throws? <==> info.workingHours.None?
    ensures r.Returns? ==> |r.value| == 6
    ensures r.Returns? ==> r.value[5] == HoursRow(Localization.Translate(t, WeekendKey), Localization.Translate(t, FlexibleKey))
    ensures r.Returns? ==> forall i :: 0 <= i < 5 ==> r.value[i].hours == WeekdayHours(info.workingHours.value, i)
  {
    match info.workingHours
    case None => Throws
    case Some(w) =>
      Returns([
        HoursRow(Localization.Translate(t, "contact.workingHours.monday"), w.monday),
        HoursRow(Localization.Translate(t, "contact.workingHours.tuesday"), w.tuesday),
        HoursRow(Localization.Translate(t, "contact.workingHours.wednesday"), w.wednesday),
        HoursRow(Localization.Translate(t, "contact.workingHours.thursday"), w.thursday),
        HoursRow(Localization.Translate(t, "contact.workingHours.friday"), w.friday),
        HoursRow(Localization.Translate(t, WeekendKey), Localization.Translate(t, FlexibleKey))])
  }

  /** The hours of weekday `i`, Monday being 0. */
  function WeekdayHours(w: WorkingHours, i: nat): string
    requires i < 5
  {
    if i == 0 then w.monday
    else if i == 1 then w.tuesday
    else if i == 2 then w.wednesday
    else if i == 3 then w.thursday
    else w.friday
  }

  /**
   * As written, the hook's formatted object never carries `workingHours`, so
   * the contact page's rows throw for every configuration, even one that
   * sets the hours.
   */
  lemma WorkingHoursAsWrittenThrows(raw: RawInfo, lang: string, t: map<string, string>)
    ensures WorkingHoursRows(Format(raw, lang), t) == Throws
  {
  }

  /** With the hours passed through, a configuration that sets them yields the six rows. */
  lemma WorkingHoursCorrectedRenders(raw: RawInfo, lang: string, t: map<string, string>)
    requires raw.workingHours.Some?
    ensures WorkingHoursRows(FormatCorrected(raw, lang), t).Returns?
    ensures |WorkingHoursRows(FormatCorrected(raw, lang), t).value| == 6
    ensures WorkingHoursRows(FormatCorrected(raw, lang), t).value[0].hours == raw.workingHours.value.monday
  {
  }
}
