/**
 * The per-user records kept in the store, the defaults, the preset values the
 * menus write, and the validation of free-text input against a pending state.
 */
module Settings {
  import opened Wrappers
  import opened Strings

  type UserId = int

  /** The `text_settings` record: overlay text, font colour, font size in pixels, overlay switch. */
  datatype TextSettings = TextSettings(text: string, color: string, size: int, use: bool)

  /** The placement fields of the user document: anchor key and watermark scale in percent. */
  datatype Placement = Placement(position: string, size: int)

  /**
   * One user's document in the store. Either part may be missing: the
   * placement fields and `text_settings` are written by separate upserts.
   */
  datatype UserDoc = UserDoc(placement: Option<Placement>, textSettings: Option<TextSettings>)

  const DefaultText := TextSettings("", "white", 24, false)
  const DefaultPlacement := Placement("mc", 50)

  /** What `get_text_data` returns for a user that has a document. */
  function StoredText(doc: UserDoc): TextSettings
  {
    doc.textSettings.GetOr(DefaultText)
  }

  /**
   * `get_text_data`: the stored text settings, the default record for a
   * document without them, and None (the lookup raises) when there is no
   * document at all.
   */
  function GetTextData(docs: map<UserId, UserDoc>, uid: UserId): (r: Option<TextSettings>)
    ensures r.Some? <==> uid in docs
    ensures uid in docs && docs[uid].textSettings.None? ==> r == Some(DefaultText)
    ensures uid in docs && docs[uid].textSettings.Some? ==> r == docs[uid].textSettings
  {
    if uid in docs then Some(StoredText(docs[uid])) else None
  }

  /** `set_text_data`: replace the user's `text_settings`, creating the document if needed. */
  function SetTextData(docs: map<UserId, UserDoc>, uid: UserId, t: TextSettings): (r: map<UserId, UserDoc>)
    ensures r.Keys == docs.Keys + {uid}
    ensures r[uid].textSettings == Some(t)
    ensures uid in docs ==> r[uid].placement == docs[uid].placement
    ensures uid !in docs ==> r[uid].placement == None
    ensures forall u :: u in docs && u != uid ==> r[u] == docs[u]
  {
    var doc := if uid in docs then docs[uid] else UserDoc(None, None);
    docs[uid := doc.(textSettings := Some(t))]
  }

  // ---------------------------------------------------------------------------
  // Fields and "only this field changed"
  // ---------------------------------------------------------------------------

  datatype Field = TextField | ColorField | SizeField | UseField

  /** `a` and `b` agree on every field except possibly `f`. */
  predicate SameExcept(a: TextSettings, b: TextSettings, f: Field)
  {
    && (f != TextField ==> a.text == b.text)
    && (f != ColorField ==> a.color == b.color)
    && (f != SizeField ==> a.size == b.size)
    && (f != UseField ==> a.use == b.use)
  }

  // ---------------------------------------------------------------------------
  // Direct writes from menu taps
  // ---------------------------------------------------------------------------

  datatype ColorPreset = White | Black | Red | Blue

  /** The colour each preset button stores. */
  function PresetColor(p: ColorPreset): string
  {
    match p
    case White => "white"
    case Black => "black"
    case Red => "#FF0000"
    case Blue => "#0000FF"
  }

  /** The preset sizes the size menu offers, in pixels. */
  const PresetSizes: seq<nat> := [20, 30, 40]

  /** `{**data, "color": color}` */
  function WithPresetColor(t: TextSettings, p: ColorPreset): (r: TextSettings)
    ensures r.color == PresetColor(p)
    ensures SameExcept(t, r, ColorField)
  {
    t.(color := PresetColor(p))
  }

  /** `{**data, "size": size}` */
  function WithSize(t: TextSettings, n: int): (r: TextSettings)
    ensures r.size == n
    ensures SameExcept(t, r, SizeField)
  {
    t.(size := n)
  }

  /** `data["use"] = not data.get("use", False)` */
  function Toggled(t: TextSettings): (r: TextSettings)
    ensures SameExcept(t, r, UseField)
    ensures r.use != t.use
  {
    t.(use := !t.use)
  }

  /** Each size button stores its own size, 20, 30 or 40 pixels, and keeps the other fields. */
  lemma PresetSizeStored(t: TextSettings, i: nat)
    requires i < |PresetSizes|
    ensures WithSize(t, PresetSizes[i]).size == 20 + 10 * i
    ensures SameExcept(t, WithSize(t, PresetSizes[i]), SizeField)
  {
  }

  /** Two toggles restore the original record. */
  lemma ToggleTwice(t: TextSettings)
    ensures Toggled(Toggled(t)) == t
  {
  }

  /** The red and blue presets are the seven-character hex strings the custom path also accepts. */
  lemma PresetColorsAccepted(p: ColorPreset)
    ensures p == Red || p == Blue ==> AcceptsColor(PresetColor(p))
    ensures p == White || p == Black ==> !AcceptsColor(PresetColor(p))
  {
  }

  // ---------------------------------------------------------------------------
  // Free-text input against a pending state
  // ---------------------------------------------------------------------------

  /** The input a user's next text message is expected to provide. */
  datatype Pending = WaitingText | WaitingColor | WaitingSize

  /** The field each pending state writes. */
  function FieldOf(state: Pending): Field
  {
    match state
    case WaitingText => TextField
    case WaitingColor => ColorField
    case WaitingSize => SizeField
  }

  /** The custom colour test: starts with '#' and is seven characters long (no hex-digit check). */
  predicate AcceptsColor(msg: string)
  {
    |msg| > 0 && msg[0] == '#' && |msg| == 7
  }

  /**
   * The record after a text message in `state`, or None when the message is
   * rejected (the user is asked to try again).
   */
  function ApplyInput(state: Pending, t: TextSettings, msg: string): Option<TextSettings>
  {
    match state
    case WaitingText => Some(t.(text := msg))
    case WaitingColor => if AcceptsColor(msg) then Some(t.(color := msg)) else None
    case WaitingSize =>
      match ParseInt(msg)
      case Some(n) => Some(t.(size := n))
      case None => None
  }

  /** An accepted message writes only the field of its pending state. */
  lemma ApplyInputOneField(state: Pending, t: TextSettings, msg: string)
    requires ApplyInput(state, t, msg).Some?
    ensures SameExcept(t, ApplyInput(state, t, msg).value, FieldOf(state))
  {
  }

  /** Any text is accepted verbatim as the overlay text. */
  lemma ApplyText(t: TextSettings, msg: string)
    ensures ApplyInput(WaitingText, t, msg).Some?
    ensures ApplyInput(WaitingText, t, msg).value.text == msg
  {
  }

  /** A colour is accepted exactly when it starts with '#' and has length 7, and is then stored as sent. */
  lemma ApplyColor(t: TextSettings, msg: string)
    ensures ApplyInput(WaitingColor, t, msg).Some? <==> (|msg| == 7 && msg[0] == '#')
    ensures ApplyInput(WaitingColor, t, msg).Some? ==> ApplyInput(WaitingColor, t, msg).value.color == msg
  {
  }

  /** A size is accepted exactly when the text is an integer, and the parsed value is stored. */
  lemma ApplySize(t: TextSettings, msg: string)
    ensures ApplyInput(WaitingSize, t, msg).Some? <==> ParseInt(msg).Some?
    ensures ParseInt(msg).Some? ==> ApplyInput(WaitingSize, t, msg).value.size == ParseInt(msg).value
  {
  }

  /** Every integer written in decimal, negative ones included, is accepted as a size. */
  lemma ApplySizeOfInt(t: TextSettings, n: int)
    ensures ApplyInput(WaitingSize, t, IntToString(n)) == Some(t.(size := n))
  {
    ParseIntToString(n);
  }

  /** The worked examples: "#1A2B3C" and "12" are stored; "not-a-hex" and "abc" are rejected. */
  lemma ApplyExamples(t: TextSettings)
    ensures ApplyInput(WaitingColor, t, "#1A2B3C") == Some(t.(color := "#1A2B3C"))
    ensures ApplyInput(WaitingColor, t, "not-a-hex") == None
    ensures ApplyInput(WaitingColor, t, "#GGGGGG") == Some(t.(color := "#GGGGGG"))
    ensures ApplyInput(WaitingSize, t, "12") == Some(t.(size := 12))
    ensures ApplyInput(WaitingSize, t, "-5") == Some(t.(size := -5))
    ensures ApplyInput(WaitingSize, t, "abc") == None
  {
    ApplySizeOfInt(t, 12);
    ApplySizeOfInt(t, -5);
    assert IntToString(12) == "12";
    assert IntToString(-5) == "-5";
    assert !IsDigit("abc"[0]);
    ParseIntRejects("abc");
  }
}
