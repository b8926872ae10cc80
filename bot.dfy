/**
 * The bot's mutable state and its handlers: the store of user documents
 * (keyed by user id) and the process-local map of pending text inputs. Each
 * handler method changes exactly what the corresponding handler of bot.py
 * writes and nothing else.
 */
module Bot {
  import opened Wrappers
  import opened Strings
  import opened Settings
  import opened FilterPlan

  /** What a free-text message did. */
  datatype InputOutcome =
    | Ignored      // no pending input for this user
    | StoreFailed  // the user has no document, so reading the text settings raises
    | Rejected     // invalid colour or size: the user is asked to retry
    | Accepted     // the field is written and the pending entry removed

  class WatermarkBot {
    /** The document store: user id to the user's document. */
    var docs: map<UserId, UserDoc>
    /** `pending_states`: the input each user's next text message is expected to provide. */
    var pending: map<UserId, Pending>

    constructor ()
      ensures docs == map[] && pending == map[]
    {
      docs := map[];
      pending := map[];
    }

    /** `start_cmd`: reset both records to the defaults; any pending input is kept. */
    method StartCmd(uid: UserId)
      modifies this
      ensures docs == old(docs)[uid := UserDoc(Some(DefaultPlacement), Some(DefaultText))]
      ensures pending == old(pending)
    {
      docs := docs[uid := UserDoc(Some(DefaultPlacement), Some(DefaultText))];
    }

    /** `set_text_cb`: the next message is the overlay text (overwriting any earlier pending input). */
    method SetTextCb(uid: UserId)
      modifies this
      ensures pending == old(pending)[uid := WaitingText]
      ensures docs == old(docs)
    {
      pending := pending[uid := WaitingText];
    }

    /** `color_custom_cb`: the next message is a hex colour. */
    method ColorCustomCb(uid: UserId)
      modifies this
      ensures pending == old(pending)[uid := WaitingColor]
      ensures docs == old(docs)
    {
      pending := pending[uid := WaitingColor];
    }

    /** `size_custom_cb`: the next message is a font size. */
    method SizeCustomCb(uid: UserId)
      modifies this
      ensures pending == old(pending)[uid := WaitingSize]
      ensures docs == old(docs)
    {
      pending := pending[uid := WaitingSize];
    }

    /**
     * `color_simple_cb`: store the preset's colour, keeping the other fields.
     * Without a document, reading the settings raises and nothing is written.
     */
    method ColorSimpleCb(uid: UserId, preset: ColorPreset)
      modifies this
      ensures uid in old(docs) ==>
        docs == SetTextData(old(docs), uid, WithPresetColor(StoredText(old(docs)[uid]), preset))
      ensures uid !in old(docs) ==> docs == old(docs)
      ensures pending == old(pending)
    {
      var data := GetTextData(docs, uid);
      if data.Some? {
        docs := SetTextData(docs, uid, WithPresetColor(data.value, preset));
      }
    }

    /** `size_cb`: store the size of the tapped preset button, keeping the other fields. */
    method SizeCb(uid: UserId, size: nat)
      modifies this
      ensures uid in old(docs) ==> docs == SetTextData(old(docs), uid, WithSize(StoredText(old(docs)[uid]), size))
      ensures uid !in old(docs) ==> docs == old(docs)
      ensures pending == old(pending)
    {
      var data := GetTextData(docs, uid);
      if data.Some? {
        docs := SetTextData(docs, uid, WithSize(data.value, size));
      }
    }

    /** `toggle_text_cb`: flip the overlay switch, keeping the other fields. */
    method ToggleTextCb(uid: UserId)
      modifies this
      ensures uid in old(docs) ==> docs == SetTextData(old(docs), uid, Toggled(StoredText(old(docs)[uid])))
      ensures uid !in old(docs) ==> docs == old(docs)
      ensures pending == old(pending)
    {
      var data := GetTextData(docs, uid);
      if data.Some? {
        docs := SetTextData(docs, uid, Toggled(data.value));
      }
    }

    /**
     * `handle_text_input`: a message from a user with no pending input is
     * ignored; otherwise it is validated against the pending state. An accepted
     * message writes its field and clears the pending entry; a rejected one
     * changes nothing, so the user stays in the same state.
     */
    method HandleTextInput(uid: UserId, msg: string) returns (outcome: InputOutcome)
      modifies this
      ensures uid !in old(pending) ==> outcome == Ignored && docs == old(docs) && pending == old(pending)
      ensures uid in old(pending) && uid !in old(docs) ==>
        outcome == StoreFailed && docs == old(docs) && pending == old(pending)
      ensures uid in old(pending) && uid in old(docs) ==>
        var r := ApplyInput(old(pending)[uid], StoredText(old(docs)[uid]), msg);
        && (r.None? ==> outcome == Rejected && docs == old(docs) && pending == old(pending))
        && (r.Some? ==> outcome == Accepted && docs == SetTextData(old(docs), uid, r.value)
                        && pending == old(pending) - {uid})
    {
      if uid !in pending {
        return Ignored;
      }
      var state := pending[uid];
      var got := GetTextData(docs, uid);
      if got.None? {
        return StoreFailed;
      }
      var data := got.value;
      match state {
        case WaitingText =>
          data := data.(text := msg);
        case WaitingColor =>
          if |msg| > 0 && msg[0] == '#' && |msg| == 7 {
            data := data.(color := msg);
          } else {
            return Rejected;
          }
        case WaitingSize =>
          var parsed := ParseInt(msg);
          if parsed.None? {
            return Rejected;
          }
          data := data.(size := parsed.value);
      }
      docs := SetTextData(docs, uid, data);
      pending := pending - {uid};
      outcome := Accepted;
    }

    /**
     * The ffmpeg command `process_video` runs for this user's upload, or None
     * when reading the user's text settings raises (no document).
     * Placement values missing from the document default to "mc" and 50.
     */
    method JobCommand(uid: UserId, probe: Probe, watermark: Option<string>, inputPath: string,
                      messageId: int, preset: string)
      returns (cmd: Option<seq<string>>)
      ensures uid !in docs ==> cmd == None
      ensures uid in docs ==>
        cmd == Some(Command(Job(probe, docs[uid].placement.GetOr(DefaultPlacement), StoredText(docs[uid]),
                                watermark, inputPath, OutputPath(messageId), preset)))
    {
      var data := if uid in docs then docs[uid].placement.GetOr(DefaultPlacement) else DefaultPlacement;
      var textData := GetTextData(docs, uid);
      if textData.None? {
        return None;
      }
      var c := BuildCommand(Job(probe, data, textData.value, watermark, inputPath, OutputPath(messageId), preset));
      cmd := Some(c);
    }
  }

  /**
   * A custom-colour conversation: an invalid colour leaves the user waiting
   * for a colour with the settings untouched; a valid one is stored and ends
   * the wait.
   */
  method CustomColorConversation(b: WatermarkBot, uid: UserId)
    requires uid in b.docs
    modifies b
    ensures uid !in b.pending
    ensures uid in b.docs && StoredText(b.docs[uid]) == StoredText(old(b.docs[uid])).(color := "#1A2B3C")
  {
    b.ColorCustomCb(uid);
    var first := b.HandleTextInput(uid, "not-a-hex");
    assert first == Rejected && b.pending[uid] == WaitingColor;
    var second := b.HandleTextInput(uid, "#1A2B3C");
    assert second == Accepted;
  }

  /** Two taps on the overlay switch restore the user's text settings. */
  method ToggleTwiceRestores(b: WatermarkBot, uid: UserId)
    requires uid in b.docs
    modifies b
    ensures uid in b.docs && StoredText(b.docs[uid]) == StoredText(old(b.docs[uid]))
    ensures b.pending == old(b.pending)
  {
    b.ToggleTextCb(uid);
    b.ToggleTextCb(uid);
    ToggleTwice(StoredText(old(b.docs[uid])));
  }
}
