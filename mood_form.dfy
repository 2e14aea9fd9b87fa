/**
 * The mood form (src/components/forms/MoodForm.tsx): its validator, the
 * emoji shown for each mood, its starting values and the entry it records.
 */
module MoodForm {
  import opened Wrappers
  import opened Types

  /** `moodEmojis`. */
  const MoodEmojis: map<string, string> := map[
    "happy" := "\U{1F604}",
    "neutral" := "\U{1F610}",
    "sad" := "\U{1F614}",
    "stressed" := "\U{1F629}",
    "excited" := "\U{1F929}"]

  /** The table has an emoji for every mood and for nothing else, and no two moods share one. */
  lemma MoodEmojisTotal()
    ensures forall m: MoodKind :: MoodName(m) in MoodEmojis
    ensures forall s :: s in MoodEmojis <==> ParseMood(s).Some?
    ensures forall m1: MoodKind, m2: MoodKind :: m1 != m2 ==> MoodEmojis[MoodName(m1)] != MoodEmojis[MoodName(m2)]
  {
    forall s ensures s in MoodEmojis <==> ParseMood(s).Some? {
      if ParseMood(s).Some? {
        assert MoodName(ParseMood(s).value) == s;
      }
    }
  }

  /** What the form holds; `note` is absent when the field was never filled. */
  datatype MoodValues = MoodValues(mood: string, note: Option<string>)

  /** `formSchema`: the mood must be one of the five; the note is optional. */
  function MoodRejected(v: MoodValues): (r: bool)
    ensures r <==> forall m: MoodKind :: MoodName(m) != v.mood
  {
    ParseMood(v.mood).None?
  }

  /** The starting values: `neutral` and an empty note. */
  const DefaultMood: MoodValues := MoodValues("neutral", Some(""))

  /** The entry `moodsService.create` receives; `date` is the submission time. */
  datatype NewMood = NewMood(mood: MoodKind, note: string, date: int)

  /** `onSubmit` after validation: the mood, the note or `""`, and the time of submission. */
  function SubmitMood(v: MoodValues, now: int): (r: Option<NewMood>)
    ensures r.Some? <==> !MoodRejected(v)
    ensures r.Some? ==> MoodName(r.value.mood) == v.mood && r.value.date == now
    ensures r.Some? && v.note.None? ==> r.value.note == ""
    ensures r.Some? && v.note.Some? ==> r.value.note == v.note.value
  {
    match ParseMood(v.mood)
    case None => None
    case Some(m) => Some(NewMood(m, if v.note.Some? && v.note.value != "" then v.note.value else "", now))
  }

  /** The untouched form is valid and records a neutral mood with an empty note. */
  lemma DefaultMoodAccepted(now: int)
    ensures SubmitMood(DefaultMood, now) == Some(NewMood(Neutral, "", now))
  {
  }
}
