/** The comfort-kit form of src/App.jsx and the intervention dispatcher that
    turns it into effects when the kit activates. The dispatcher's actions
    (playing audio, restyling the page, alerts) are returned as values. */
module ComfortKit {

  /** The five form fields; the empty string means "Select one..." / no anchor. */
  datatype Form = Form(music: string, visual: string, activity: string, support: string, anchor: string)

  const EmptyForm: Form := Form("", "", "", "", "")

  datatype Field = Music | Visual | Activity | Support | Anchor

  function FieldValue(form: Form, field: Field): string {
    match field
    case Music => form.music
    case Visual => form.visual
    case Activity => form.activity
    case Support => form.support
    case Anchor => form.anchor
  }

  /** `handleChange(field, value)`: `{ ...form, [field]: value }`. */
  function WithField(form: Form, field: Field, value: string): (r: Form)
    ensures FieldValue(r, field) == value
    ensures forall other :: other != field ==> FieldValue(r, other) == FieldValue(form, other)
  {
    match field
    case Music => form.(music := value)
    case Visual => form.(visual := value)
    case Activity => form.(activity := value)
    case Support => form.(support := value)
    case Anchor => form.(anchor := value)
  }

  /** What the dispatcher asks the page to do. `ApplyBackground` stands for setting the
      body's background image to `url(image)` with size "cover" and position "center". */
  datatype Effect =
    | PlayAudio(file: string)
    | ApplyBackground(image: string)
    | ActivityPrompt(message: string)
    | SupportPrompt(message: string)
    | AnchorReminder(anchor: string)

  /** The field an effect comes from. */
  function Source(e: Effect): Field {
    match e
    case PlayAudio(_) => Music
    case ApplyBackground(_) => Visual
    case ActivityPrompt(_) => Activity
    case SupportPrompt(_) => Support
    case AnchorReminder(_) => Anchor
  }

  /** The text an effect shows in an alert, if it shows one. */
  function AlertText(e: Effect): string {
    match e
    case PlayAudio(_) => ""
    case ApplyBackground(_) => ""
    case ActivityPrompt(m) => m
    case SupportPrompt(m) => m
    case AnchorReminder(a) => "\U{1F4F7} Anchor Reminder: " + a
  }

  // The options each select of the form offers besides "Select one...".
  const MusicChoices: seq<string> := ["Soft piano or guitar", "Rain / Ocean waves", "Uplifting playlist"]
  const VisualChoices: seq<string> := ["Nature (trees, water, sky)", "Space / Stars", "Cozy room vibes"]
  const ActivityChoices: seq<string> :=
    ["Drawing / Coloring", "Reading / Story audio", "Games / Puzzles", "Meditation / Journaling"]
  const SupportChoices: seq<string> := ["Breathing exercise", "Comfort chatbot", "Affirmations / Quotes"]

  /** The audio file chosen by three consecutive `if`s; "" when the label is none of them. */
  function AudioFile(music: string): string {
    var file := "";
    var file := if music == "Soft piano or guitar" then "/sounds/piano.mp3" else file;
    var file := if music == "Rain / Ocean waves" then "/sounds/rain.mp3" else file;
    if music == "Uplifting playlist" then "/sounds/uplift.mp3" else file
  }

  /** The background image chosen the same way. */
  function BackgroundImage(visual: string): string {
    var image := "";
    var image := if visual == "Nature (trees, water, sky)" then "/visuals/nature.jpg" else image;
    var image := if visual == "Space / Stars" then "/visuals/space.jpg" else image;
    if visual == "Cozy room vibes" then "/visuals/cozy.jpg" else image
  }

  /** A sound file is chosen exactly for the offered music labels, and it is one of three. */
  lemma AudioFileChosen(music: string)
    ensures AudioFile(music) != "" <==> music in MusicChoices
    ensures AudioFile(music) in {"", "/sounds/piano.mp3", "/sounds/rain.mp3", "/sounds/uplift.mp3"}
  {
  }

  /** An image is chosen exactly for the offered visual labels, and it is one of three. */
  lemma BackgroundImageChosen(visual: string)
    ensures BackgroundImage(visual) != "" <==> visual in VisualChoices
    ensures BackgroundImage(visual) in {"", "/visuals/nature.jpg", "/visuals/space.jpg", "/visuals/cozy.jpg"}
  {
  }

  function MusicEffects(music: string): (effects: seq<Effect>)
    ensures |effects| <= 1 && forall e :: e in effects ==> e.PlayAudio?
    ensures music == "" ==> effects == []
  {
    if music != "" && AudioFile(music) != "" then [PlayAudio(AudioFile(music))] else []
  }

  function VisualEffects(visual: string): (effects: seq<Effect>)
    ensures |effects| <= 1 && forall e :: e in effects ==> e.ApplyBackground?
    ensures visual == "" ==> effects == []
  {
    if visual != "" && BackgroundImage(visual) != "" then [ApplyBackground(BackgroundImage(visual))] else []
  }

  function ActivityEffects(activity: string): (effects: seq<Effect>)
    ensures |effects| <= 1 && forall e :: e in effects ==> e.ActivityPrompt?
    ensures activity == "" ==> effects == []
  {
    if activity == "Meditation / Journaling" then
      [ActivityPrompt("\U{1F9D8} Time for a meditation or journaling break!")]
    else if activity == "Games / Puzzles" then
      [ActivityPrompt("\U{1F9E9} Try a quick puzzle to relax your mind.")]
    else if activity == "Drawing / Coloring" then
      [ActivityPrompt("\U{1F3A8} Grab some colors and draw something fun!")]
    else if activity == "Reading / Story audio" then
      [ActivityPrompt("\U{1F4D6} Relax with a story or audiobook.")]
    else []
  }

  function SupportEffects(support: string): (effects: seq<Effect>)
    ensures |effects| <= 1 && forall e :: e in effects ==> e.SupportPrompt?
    ensures support == "" ==> effects == []
  {
    if support == "Breathing exercise" then
      [SupportPrompt("\U{1F32C}\U{FE0F} Inhale deeply... exhale slowly... repeat 5 times.")]
    else if support == "Comfort chatbot" then
      [SupportPrompt("\U{1F4AC} Talk to me anytime \U{2014} I\U{2019}m here to listen.")]
    else if support == "Affirmations / Quotes" then
      [SupportPrompt("\U{1F4A1} Remember: You are stronger than you think!")]
    else []
  }

  /** The effects one field contributes on activation: at most one, from that field,
      and none for an empty field. */
  function Contribution(field: Field, value: string): (effects: seq<Effect>)
    ensures |effects| <= 1
    ensures forall e :: e in effects ==> Source(e) == field
    ensures value == "" ==> effects == []
  {
    match field
    case Music => MusicEffects(value)
    case Visual => VisualEffects(value)
    case Activity => ActivityEffects(value)
    case Support => SupportEffects(value)
    case Anchor => if value != "" then [AnchorReminder(value)] else []
  }

  /** The options of a select field. */
  function Choices(field: Field): seq<string>
    requires field != Anchor
  {
    match field
    case Music => MusicChoices
    case Visual => VisualChoices
    case Activity => ActivityChoices
    case Support => SupportChoices
  }

  /** A select field contributes an effect exactly for the options the form offers:
      every option has an asset or a prompt, and any other label gives nothing. */
  lemma ContributesIffOffered(field: Field, value: string)
    requires field != Anchor
    ensures Contribution(field, value) != [] <==> value in Choices(field)
  {
    match field
    case Music => AudioFileChosen(value);
    case Visual => BackgroundImageChosen(value);
    case Activity =>
    case Support =>
  }

  /** The anchor reminder carries the anchor text verbatim. */
  lemma AnchorCarriesText(anchor: string)
    requires anchor != ""
    ensures Contribution(Anchor, anchor) == [AnchorReminder(anchor)]
    ensures AlertText(Contribution(Anchor, anchor)[0]) == "\U{1F4F7} Anchor Reminder: " + anchor
  {
  }

  /** The dispatcher: music, visual, activity, support and anchor, in that order,
      each deciding its own effect. */
  function Dispatch(form: Form): (effects: seq<Effect>)
    ensures |effects| <= 5
    ensures form == EmptyForm ==> effects == []
  {
    Contribution(Music, form.music) + Contribution(Visual, form.visual)
      + Contribution(Activity, form.activity) + Contribution(Support, form.support)
      + Contribution(Anchor, form.anchor)
  }

  /** The effects of a sequence that come from one field. */
  function FromField(effects: seq<Effect>, field: Field): (r: seq<Effect>)
    ensures forall e :: e in r ==> e in effects && Source(e) == field
  {
    if effects == [] then []
    else (if Source(effects[0]) == field then [effects[0]] else []) + FromField(effects[1..], field)
  }

  /** The filter keeps every effect that comes from the field. */
  lemma {:induction false} FromFieldComplete(effects: seq<Effect>, field: Field)
    ensures forall e :: e in effects && Source(e) == field ==> e in FromField(effects, field)
  {
    if effects != [] {
      FromFieldComplete(effects[1..], field);
    }
  }

  lemma {:induction false} FromFieldAppend(a: seq<Effect>, b: seq<Effect>, field: Field)
    ensures FromField(a + b, field) == FromField(a, field) + FromField(b, field)
  {
    if a == [] {
      assert a + b == b;
    } else {
      assert (a + b)[1..] == a[1..] + b;
      FromFieldAppend(a[1..], b, field);
    }
  }

  /** Effects that all come from one field are kept whole by that field's filter
      and dropped by every other. */
  lemma {:induction false} FromFieldSourced(effects: seq<Effect>, source: Field, field: Field)
    requires forall e :: e in effects ==> Source(e) == source
    ensures FromField(effects, field) == if source == field then effects else []
  {
    if effects != [] {
      assert effects[0] in effects;
      FromFieldSourced(effects[1..], source, field);
      assert effects == [effects[0]] + effects[1..];
    }
  }

  /** Filtering the dispatcher's five parts, each from its own field, picks the part
      of the filtered field. */
  lemma {:induction false} FromFieldOfParts(m: seq<Effect>, v: seq<Effect>, a: seq<Effect>, s: seq<Effect>, n: seq<Effect>, field: Field)
    requires forall e :: e in m ==> Source(e) == Music
    requires forall e :: e in v ==> Source(e) == Visual
    requires forall e :: e in a ==> Source(e) == Activity
    requires forall e :: e in s ==> Source(e) == Support
    requires forall e :: e in n ==> Source(e) == Anchor
    ensures FromField(m + v + a + s + n, field)
      == match field case Music => m case Visual => v case Activity => a case Support => s case Anchor => n
  {
    FromFieldAppend(m + v + a + s, n, field);
    FromFieldAppend(m + v + a, s, field);
    FromFieldAppend(m + v, a, field);
    FromFieldAppend(m, v, field);
    FromFieldSourced(m, Music, field);
    FromFieldSourced(v, Visual, field);
    FromFieldSourced(a, Activity, field);
    FromFieldSourced(s, Support, field);
    FromFieldSourced(n, Anchor, field);
    assert FromField(m + v + a + s + n, field)
      == FromField(m, field) + FromField(v, field) + FromField(a, field) + FromField(s, field) + FromField(n, field);
    match field
    case Music => assert m + [] + [] + [] + [] == m;
    case Visual => assert [] + v + [] + [] + [] == v;
    case Activity => assert [] + [] + a + [] + [] == a;
    case Support => assert [] + [] + [] + s + [] == s;
    case Anchor => assert [] + [] + [] + [] + n == n;
  }

  /** Dispatch independence: the effects a field causes depend on that field's value alone. */
  lemma DispatchByField(form: Form, field: Field)
    ensures FromField(Dispatch(form), field) == Contribution(field, FieldValue(form, field))
  {
    FromFieldOfParts(Contribution(Music, form.music), Contribution(Visual, form.visual),
      Contribution(Activity, form.activity), Contribution(Support, form.support),
      Contribution(Anchor, form.anchor), field);
  }

  /** Hence two forms that agree on a field cause the same effects for it. */
  lemma DispatchIndependent(f1: Form, f2: Form, field: Field)
    requires FieldValue(f1, field) == FieldValue(f2, field)
    ensures FromField(Dispatch(f1), field) == FromField(Dispatch(f2), field)
  {
    DispatchByField(f1, field);
    DispatchByField(f2, field);
  }
}
