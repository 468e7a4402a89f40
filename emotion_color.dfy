/**
 * The emotion-to-colour class mapping: `getEmotionColor` of lib/utils.ts
 * and the near-duplicate local to the detect page.
 */
module EmotionColor {
  import opened Wrappers
  import opened Text

  const Green := "bg-green-500"
  const Blue := "bg-blue-500"
  const Red := "bg-red-500"
  const Purple := "bg-purple-500"
  const Yellow := "bg-yellow-500"
  const Pink := "bg-pink-500"
  const Gray := "bg-gray-500"

  /** The six emotions that have a colour of their own. */
  const Palette: map<string, string> :=
    map["happy" := Green, "sad" := Blue, "angry" := Red, "fearful" := Purple,
        "disgusted" := Yellow, "surprised" := Pink]

  /** Every class the mapping can return. */
  const Classes: set<string> := {Green, Blue, Red, Purple, Yellow, Pink, Gray}

  /**
   * `getEmotionColor` of lib/utils.ts: a switch on `emotion?.toLowerCase()`;
   * None stands for null or undefined, which the optional chaining turns
   * into the default case.
   */
  function ColorOf(emotion: Option<string>): (r: string)
    ensures r in Classes
    ensures emotion.None? ==> r == Gray
  {
    match emotion
    case None => Gray
    case Some(e) =>
      var k := Lower(e);
      if k == "happy" then Green
      else if k == "sad" then Blue
      else if k == "angry" then Red
      else if k == "fearful" then Purple
      else if k == "disgusted" then Yellow
      else if k == "surprised" then Pink
      else if k == "neutral" then Gray
      else Gray
  }

  /**
   * The detect page's own `getEmotionColor`: the same switch on
   * `emotion.toLowerCase()` without the explicit "neutral" case.
   */
  function DetectPageColorOf(emotion: string): (r: string)
    ensures Lower(emotion) in Palette ==> r == Palette[Lower(emotion)]
    ensures Lower(emotion) !in Palette ==> r == Gray
  {
    var k := Lower(emotion);
    if k == "happy" then Green
    else if k == "sad" then Blue
    else if k == "angry" then Red
    else if k == "fearful" then Purple
    else if k == "disgusted" then Yellow
    else if k == "surprised" then Pink
    else Gray
  }

  /** The switch is the palette lookup on the lower-cased name, gray for every other name. */
  lemma ColorIsPaletteLookup(e: string)
    ensures ColorOf(Some(e)) == if Lower(e) in Palette then Palette[Lower(e)] else Gray
  {
  }

  /** The two copies agree on every string. */
  lemma DetectPageAgrees(e: string)
    ensures DetectPageColorOf(e) == ColorOf(Some(e))
  {
  }

  /** Case does not matter: the colour depends only on the lower-cased name. */
  lemma CaseInsensitive(e: string)
    ensures ColorOf(Some(e)) == ColorOf(Some(Lower(e)))
  {
    LowerIdempotent(e);
  }

  /** The six named emotions get six different classes, none of them gray. */
  lemma PaletteInjective()
    ensures forall a, b :: a in Palette && b in Palette && a != b ==> Palette[a] != Palette[b]
    ensures forall a :: a in Palette ==> Palette[a] != Gray
  {
  }

  /** Gray exactly for "neutral", for every other name, and for a missing value. */
  lemma GrayExactlyOutsidePalette(emotion: Option<string>)
    ensures ColorOf(emotion) == Gray <==> emotion.None? || Lower(emotion.value) !in Palette
  {
    PaletteInjective();
  }
}
