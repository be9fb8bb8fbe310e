/**
 * The optional-parameter structs of the bot API methods. Each one has a pointer
 * field per optional parameter; AppendPayload adds one url.Values entry per set
 * field, under a fixed key, in the order the fields are declared.
 *
 * A struct is described here by its field table (Fields): the key of each
 * optional parameter, with its encoded value when the field is set. The entries
 * AppendPayload adds are the set fields of that table, in table order (Present).
 */
module Optionals {
  import opened Outcomes
  import opened UrlValues
  import Format

  /** One optional parameter: its key, and its encoded value when the field is non-nil. */
  datatype Field = Field(key: string, value: Option<string>)

  /**
   * A types.ReplyMarkup, known here only through what its ToJson method returns:
   * the JSON text and the error that came with it.
   */
  datatype ReplyMarkup = ReplyMarkup(json: string, jsonError: Option<string>)
  {
    function ToJson(): (string, Option<string>)
    {
      (json, jsonError)
    }
  }

  /** The entries added for a field table: one per set field, in table order. */
  function Present(fs: seq<Field>): seq<Entry>
  {
    if fs == [] then []
    else
      var last := fs[|fs| - 1];
      Present(fs[..|fs| - 1]) + (if last.value.Some? then [Entry(last.key, last.value.value)] else [])
  }

  /** The values a single field contributes: its encoding if set, nothing if nil. */
  function Listed(o: Option<string>): seq<string>
  {
    if o.Some? then [o.value] else []
  }

  predicate DistinctKeys(fs: seq<Field>)
  {
    forall i, j :: 0 <= i < j < |fs| ==> fs[i].key != fs[j].key
  }

  function FieldKeys(fs: seq<Field>): set<string>
  {
    set f | f in fs :: f.key
  }

  function SetCount(fs: seq<Field>): nat
  {
    if fs == [] then 0 else SetCount(fs[..|fs| - 1]) + (if fs[|fs| - 1].value.Some? then 1 else 0)
  }

  /**
   * The positions in fs of the fields that Present turns into entries. They are
   * increasing, they cover every set field, and entry k comes from field ix[k]:
   * Present keeps the set fields and their declaration order.
   */
  function SetPositions(fs: seq<Field>): (ix: seq<nat>)
    ensures |ix| == |Present(fs)|
    ensures forall k :: 0 <= k < |ix| ==>
      ix[k] < |fs| && fs[ix[k]].value == Some(Present(fs)[k].value) && fs[ix[k]].key == Present(fs)[k].key
    ensures forall k, l :: 0 <= k < l < |ix| ==> ix[k] < ix[l]
    ensures forall i :: 0 <= i < |fs| && fs[i].value.Some? ==> i in ix
  {
    if fs == [] then []
    else
      var n := |fs| - 1;
      var init := SetPositions(fs[..n]);
      assert forall i :: 0 <= i < n ==> fs[..n][i] == fs[i];
      if fs[n].value.Some? then init + [n] else init
  }

  /** Exactly one entry per set field. */
  lemma {:induction false} PresentCount(fs: seq<Field>)
    ensures |Present(fs)| == SetCount(fs)
  {
    if fs != [] {
      PresentCount(fs[..|fs| - 1]);
    }
  }

  lemma {:induction false} PresentKeys(fs: seq<Field>)
    ensures KeysOf(Present(fs)) <= FieldKeys(fs)
  {
    if fs != [] {
      var init := fs[..|fs| - 1];
      PresentKeys(init);
      assert FieldKeys(init) <= FieldKeys(fs);
      assert fs[|fs| - 1] in fs;
    }
  }

  /** Under the key of field i, the entries carry exactly that field's encoding, or nothing. */
  lemma {:induction false} PresentValues(fs: seq<Field>, i: nat)
    requires DistinctKeys(fs) && i < |fs|
    ensures ValuesFor(Present(fs), fs[i].key) == Listed(fs[i].value)
  {
    var n := |fs| - 1;
    var init := fs[..n];
    if i == n {
      assert fs[i].key !in FieldKeys(init);
      PresentKeys(init);
      NoValuesForAbsentKey(Present(init), fs[i].key);
    } else {
      PresentValues(init, i);
    }
    if fs[n].value.Some? {
      assert Present(fs) == Present(init) + [Entry(fs[n].key, fs[n].value.value)];
      assert Present(fs)[..|Present(fs)| - 1] == Present(init);
    } else {
      assert Present(fs) == Present(init);
    }
  }

  /**
   * AppendPayload's effect on the payload, for a field table with distinct keys:
   * under each field's key the old list gains that field's encoding if it is set
   * and nothing if it is nil; every other key keeps its list.
   */
  lemma AppendFields(v: Values, fs: seq<Field>)
    requires DistinctKeys(fs)
    ensures forall i :: 0 <= i < |fs| ==>
      Get(AppendAll(v, Present(fs)), fs[i].key) == Get(v, fs[i].key) + Listed(fs[i].value)
    ensures forall k :: k !in FieldKeys(fs) ==> Get(AppendAll(v, Present(fs)), k) == Get(v, k)
  {
    forall i | 0 <= i < |fs|
      ensures Get(AppendAll(v, Present(fs)), fs[i].key) == Get(v, fs[i].key) + Listed(fs[i].value)
    {
      AppendAllGet(v, Present(fs), fs[i].key);
      PresentValues(fs, i);
    }
    PresentKeys(fs);
    AppendOnly(v, Present(fs));
  }

  /** AppendFields for one field: the list under field i's key gains exactly that field's encoding. */
  lemma AppendedUnder(v: Values, fs: seq<Field>, i: nat)
    requires DistinctKeys(fs) && i < |fs|
    ensures Get(AppendAll(v, Present(fs)), fs[i].key) == Get(v, fs[i].key) + Listed(fs[i].value)
  {
    AppendAllGet(v, Present(fs), fs[i].key);
    PresentValues(fs, i);
  }

  /** AppendFields for the keys outside the table: their lists are untouched. */
  lemma AppendedNowhereElse(v: Values, fs: seq<Field>, k: string)
    requires forall i :: 0 <= i < |fs| ==> fs[i].key != k
    ensures Get(AppendAll(v, Present(fs)), k) == Get(v, k)
  {
    PresentKeys(fs);
    assert k !in FieldKeys(fs);
    AppendAllGet(v, Present(fs), k);
    NoValuesForAbsentKey(Present(fs), k);
  }

  /** A struct whose fields are all nil leaves the payload exactly as it was. */
  lemma {:induction false} AllNilUnchanged(v: Values, fs: seq<Field>)
    requires forall i :: 0 <= i < |fs| ==> fs[i].value.None?
    ensures AppendAll(v, Present(fs)) == v
  {
    if fs != [] {
      var init := fs[..|fs| - 1];
      assert forall i :: 0 <= i < |init| ==> init[i] == fs[i];
      AllNilUnchanged(v, init);
      assert Present(fs) == Present(init);
    }
  }

  /** One guarded payload.Add: the field's value under its key if it is set, else no change. */
  function AddIfSet(v: Values, f: Field): Values
  {
    if f.value.Some? then Append(v, f.key, f.value.value) else v
  }

  /** The payload after the guarded adds of fs, one field after another. */
  function AddEach(v: Values, fs: seq<Field>): Values
  {
    if fs == [] then v else AddIfSet(AddEach(v, fs[..|fs| - 1]), fs[|fs| - 1])
  }

  /**
   * One guarded payload.Add as the next step of the fold: if the payload was
   * AddEach(v, done) before the step and the step added f when it is set, it is
   * now AddEach(v, done + [f]).
   */
  lemma AddEachStep(v: Values, done: seq<Field>, f: Field, now: Values)
    requires now == AddIfSet(AddEach(v, done), f)
    ensures now == AddEach(v, done + [f])
  {
    assert (done + [f])[..|done|] == done;
  }

  /** The guarded adds, one after another, add exactly the entries of the set fields. */
  lemma {:induction false} AddEachIsAppendAll(v: Values, fs: seq<Field>)
    ensures AddEach(v, fs) == AppendAll(v, Present(fs))
  {
    if fs != [] {
      var init, f := fs[..|fs| - 1], fs[|fs| - 1];
      AddEachIsAppendAll(v, init);
      var es := Present(init);
      assert AddEach(v, fs) == AddIfSet(AppendAll(v, es), f);
      if f.value.Some? {
        var e := Entry(f.key, f.value.value);
        assert Present(fs) == es + [e];
        assert (es + [e])[..|es|] == es;
        assert AppendAll(v, es + [e]) == Append(AppendAll(v, es), f.key, f.value.value);
      } else {
        assert Present(fs) == es;
      }
    }
  }

  // Field encodings used by the structs.

  /** A *string field: stored verbatim. */
  function Text(key: string, o: Option<string>): Field
  {
    Field(key, o)
  }

  /** A *int field: stored as strconv.Itoa of its value. */
  function Number(key: string, o: Option<int>): Field
  {
    Field(key, if o.Some? then Some(Format.Itoa(o.value)) else None)
  }

  /** A *bool field: stored as strconv.FormatBool of its value, which strconv.ParseBool reads back. */
  function Flag(key: string, o: Option<bool>): (f: Field)
    ensures f.key == key && (f.value.Some? <==> o.Some?)
    ensures o.Some? ==> Format.ParseBool(f.value.value) == o
  {
    Field(key, if o.Some? then Some(Format.FormatBool(o.value)) else None)
  }

  /**
   * AnswerInlineQuery's is_personal: stored as capitalised "True" or "False". That
   * is not what strconv.FormatBool gives, but strconv.ParseBool still reads it back.
   */
  function Capitalised(key: string, o: Option<bool>): (f: Field)
    ensures f.key == key && (f.value.Some? <==> o.Some?)
    ensures o.Some? ==> Format.ParseBool(f.value.value) == o && f.value.value != Format.FormatBool(o.value)
  {
    Field(key, if o.Some? then Some(if o.value then "True" else "False") else None)
  }

  /** The reply markup: stored as the text ToJson returns; ToJson's error is discarded. */
  function Markup(o: Option<ReplyMarkup>): (f: Field)
    ensures f.key == "reply_markup" && (f.value.Some? <==> o.Some?)
    ensures o.Some? ==> f.value.value == o.value.json
  {
    Field("reply_markup", if o.Some? then Some(o.value.ToJson().0) else None)
  }

  /** Optional parameters of sendMessage. */
  datatype SendMessageOptional = SendMessageOptional(
    parseMode: Option<string>,
    disableWebPagePreview: Option<bool>,
    disableNotification: Option<bool>,
    replyToMessageId: Option<int>,
    replyMarkup: Option<ReplyMarkup>)
  {
    /** The optional parameters, in the order AppendPayload adds them. */
    function Fields(): seq<Field>
    {
      [ Text("parse_mode", parseMode),
        Flag("disable_web_page_preview", disableWebPagePreview),
        Flag("disable_notification", disableNotification),
        Number("reply_to_message_id", replyToMessageId),
        Markup(replyMarkup) ]
    }

    /** Adds one entry per set field to the caller's payload, after what is already there. */
    method AppendPayload(payload: Payload)
      modifies payload
      ensures payload.values == AppendAll(old(payload.values), Present(Fields()))
    {
      assert Fields() == []
        + [Text("parse_mode", parseMode)]
        + [Flag("disable_web_page_preview", disableWebPagePreview)]
        + [Flag("disable_notification", disableNotification)]
        + [Number("reply_to_message_id", replyToMessageId)]
        + [Markup(replyMarkup)];
      ghost var before, done := payload.values, [];
      if parseMode.Some? {
        payload.Add("parse_mode", parseMode.value);
      }
      AddEachStep(before, done, Text("parse_mode", parseMode), payload.values);
      done := done + [Text("parse_mode", parseMode)];
      if disableWebPagePreview.Some? {
        payload.Add("disable_web_page_preview", Format.FormatBool(disableWebPagePreview.value));
      }
      AddEachStep(before, done, Flag("disable_web_page_preview", disableWebPagePreview), payload.values);
      done := done + [Flag("disable_web_page_preview", disableWebPagePreview)];
      if disableNotification.Some? {
        payload.Add("disable_notification", Format.FormatBool(disableNotification.value));
      }
      AddEachStep(before, done, Flag("disable_notification", disableNotification), payload.values);
      done := done + [Flag("disable_notification", disableNotification)];
      if replyToMessageId.Some? {
        payload.Add("reply_to_message_id", Format.Itoa(replyToMessageId.value));
      }
      AddEachStep(before, done, Number("reply_to_message_id", replyToMessageId), payload.values);
      done := done + [Number("reply_to_message_id", replyToMessageId)];
      if replyMarkup.Some? {
        var (json, _) := replyMarkup.value.ToJson();
        payload.Add("reply_markup", json);
      }
      AddEachStep(before, done, Markup(replyMarkup), payload.values);
      done := done + [Markup(replyMarkup)];
      AddEachIsAppendAll(before, done);
    }

    /** With every field nil, AppendPayload leaves the payload exactly as it was. */
    lemma NilLeavesPayload(v: Values)
      requires this == SendMessageOptional(None, None, None, None, None)
      ensures AppendAll(v, Present(Fields())) == v
    {
      AllNilUnchanged(v, Fields());
    }
  }

  /** Optional parameters of sendPhoto. */
  datatype SendPhotoOptional = SendPhotoOptional(
    caption: Option<string>,
    replyToMessageId: Option<int>,
    replyMarkup: Option<ReplyMarkup>)
  {
    /** The optional parameters, in the order AppendPayload adds them. */
    function Fields(): seq<Field>
    {
      [ Text("caption", caption),
        Number("reply_to_message_id", replyToMessageId),
        Markup(replyMarkup) ]
    }

    /** Adds one entry per set field to the caller's payload, after what is already there. */
    method AppendPayload(payload: Payload)
      modifies payload
      ensures payload.values == AppendAll(old(payload.values), Present(Fields()))
    {
      assert Fields() == []
        + [Text("caption", caption)]
        + [Number("reply_to_message_id", replyToMessageId)]
        + [Markup(replyMarkup)];
      ghost var before, done := payload.values, [];
      if caption.Some? {
        payload.Add("caption", caption.value);
      }
      AddEachStep(before, done, Text("caption", caption), payload.values);
      done := done + [Text("caption", caption)];
      if replyToMessageId.Some? {
        payload.Add("reply_to_message_id", Format.Itoa(replyToMessageId.value));
      }
      AddEachStep(before, done, Number("reply_to_message_id", replyToMessageId), payload.values);
      done := done + [Number("reply_to_message_id", replyToMessageId)];
      if replyMarkup.Some? {
        var (json, _) := replyMarkup.value.ToJson();
        payload.Add("reply_markup", json);
      }
      AddEachStep(before, done, Markup(replyMarkup), payload.values);
      done := done + [Markup(replyMarkup)];
      AddEachIsAppendAll(before, done);
    }

    /** With every field nil, AppendPayload leaves the payload exactly as it was. */
    lemma NilLeavesPayload(v: Values)
      requires this == SendPhotoOptional(None, None, None)
      ensures AppendAll(v, Present(Fields())) == v
    {
      AllNilUnchanged(v, Fields());
    }
  }

  /** Optional parameters of sendAudio. */
  datatype SendAudioOptional = SendAudioOptional(
    duration: Option<int>,
    performer: Option<string>,
    title: Option<string>,
    replyToMessageId: Option<int>,
    replyMarkup: Option<ReplyMarkup>)
  {
    /** The optional parameters, in the order AppendPayload adds them. */
    function Fields(): seq<Field>
    {
      [ Number("duration", duration),
        Text("performer", performer),
        Text("title", title),
        Number("reply_to_message_id", replyToMessageId),
        Markup(replyMarkup) ]
    }

    /** Adds one entry per set field to the caller's payload, after what is already there. */
    method AppendPayload(payload: Payload)
      modifies payload
      ensures payload.values == AppendAll(old(payload.values), Present(Fields()))
    {
      assert Fields() == []
        + [Number("duration", duration)]
        + [Text("performer", performer)]
        + [Text("title", title)]
        + [Number("reply_to_message_id", replyToMessageId)]
        + [Markup(replyMarkup)];
      ghost var before, done := payload.values, [];
      if duration.Some? {
        payload.Add("duration", Format.Itoa(duration.value));
      }
      AddEachStep(before, done, Number("duration", duration), payload.values);
      done := done + [Number("duration", duration)];
      if performer.Some? {
        payload.Add("performer", performer.value);
      }
      AddEachStep(before, done, Text("performer", performer), payload.values);
      done := done + [Text("performer", performer)];
      if title.Some? {
        payload.Add("title", title.value);
      }
      AddEachStep(before, done, Text("title", title), payload.values);
      done := done + [Text("title", title)];
      if replyToMessageId.Some? {
        payload.Add("reply_to_message_id", Format.Itoa(replyToMessageId.value));
      }
      AddEachStep(before, done, Number("reply_to_message_id", replyToMessageId), payload.values);
      done := done + [Number("reply_to_message_id", replyToMessageId)];
      if replyMarkup.Some? {
        var (json, _) := replyMarkup.value.ToJson();
        payload.Add("reply_markup", json);
      }
      AddEachStep(before, done, Markup(replyMarkup), payload.values);
      done := done + [Markup(replyMarkup)];
      AddEachIsAppendAll(before, done);
    }

    /** With every field nil, AppendPayload leaves the payload exactly as it was. */
    lemma NilLeavesPayload(v: Values)
      requires this == SendAudioOptional(None, None, None, None, None)
      ensures AppendAll(v, Present(Fields())) == v
    {
      AllNilUnchanged(v, Fields());
    }
  }

  /** Optional parameters of sendDocument. */
  datatype SendDocumentOptional = SendDocumentOptional(
    replyToMessageId: Option<int>,
    replyMarkup: Option<ReplyMarkup>)
  {
    /** The optional parameters, in the order AppendPayload adds them. */
    function Fields(): seq<Field>
    {
      [ Number("reply_to_message_id", replyToMessageId),
        Markup(replyMarkup) ]
    }

    /** Adds one entry per set field to the caller's payload, after what is already there. */
    method AppendPayload(payload: Payload)
      modifies payload
      ensures payload.values == AppendAll(old(payload.values), Present(Fields()))
    {
      assert Fields() == []
        + [Number("reply_to_message_id", replyToMessageId)]
        + [Markup(replyMarkup)];
      ghost var before, done := payload.values, [];
      if replyToMessageId.Some? {
        payload.Add("reply_to_message_id", Format.Itoa(replyToMessageId.value));
      }
      AddEachStep(before, done, Number("reply_to_message_id", replyToMessageId), payload.values);
      done := done + [Number("reply_to_message_id", replyToMessageId)];
      if replyMarkup.Some? {
        var (json, _) := replyMarkup.value.ToJson();
        payload.Add("reply_markup", json);
      }
      AddEachStep(before, done, Markup(replyMarkup), payload.values);
      done := done + [Markup(replyMarkup)];
      AddEachIsAppendAll(before, done);
    }

    /** With every field nil, AppendPayload leaves the payload exactly as it was. */
    lemma NilLeavesPayload(v: Values)
      requires this == SendDocumentOptional(None, None)
      ensures AppendAll(v, Present(Fields())) == v
    {
      AllNilUnchanged(v, Fields());
    }
  }

  /** Optional parameters of sendSticker. */
  datatype SendStickerOptional = SendStickerOptional(
    replyToMessageId: Option<int>,
    replyMarkup: Option<ReplyMarkup>)
  {
    /** The optional parameters, in the order AppendPayload adds them. */
    function Fields(): seq<Field>
    {
      [ Number("reply_to_message_id", replyToMessageId),
        Markup(replyMarkup) ]
    }

    /** Adds one entry per set field to the caller's payload, after what is already there. */
    method AppendPayload(payload: Payload)
      modifies payload
      ensures payload.values == AppendAll(old(payload.values), Present(Fields()))
    {
      assert Fields() == []
        + [Number("reply_to_message_id", replyToMessageId)]
        + [Markup(replyMarkup)];
      ghost var before, done := payload.values, [];
      if replyToMessageId.Some? {
        payload.Add("reply_to_message_id", Format.Itoa(replyToMessageId.value));
      }
      AddEachStep(before, done, Number("reply_to_message_id", replyToMessageId), payload.values);
      done := done + [Number("reply_to_message_id", replyToMessageId)];
      if replyMarkup.Some? {
        var (json, _) := replyMarkup.value.ToJson();
        payload.Add("reply_markup", json);
      }
      AddEachStep(before, done, Markup(replyMarkup), payload.values);
      done := done + [Markup(replyMarkup)];
      AddEachIsAppendAll(before, done);
    }

    /** With every field nil, AppendPayload leaves the payload exactly as it was. */
    lemma NilLeavesPayload(v: Values)
      requires this == SendStickerOptional(None, None)
      ensures AppendAll(v, Present(Fields())) == v
    {
      AllNilUnchanged(v, Fields());
    }
  }

  /** Optional parameters of sendVideo. */
  datatype SendVideoOptional = SendVideoOptional(
    duration: Option<int>,
    caption: Option<string>,
    replyToMessageId: Option<int>,
    replyMarkup: Option<ReplyMarkup>)
  {
    /** The optional parameters, in the order AppendPayload adds them. */
    function Fields(): seq<Field>
    {
      [ Number("duration", duration),
        Text("caption", caption),
        Number("reply_to_message_id", replyToMessageId),
        Markup(replyMarkup) ]
    }

    /** Adds one entry per set field to the caller's payload, after what is already there. */
    method AppendPayload(payload: Payload)
      modifies payload
      ensures payload.values == AppendAll(old(payload.values), Present(Fields()))
    {
      assert Fields() == []
        + [Number("duration", duration)]
        + [Text("caption", caption)]
        + [Number("reply_to_message_id", replyToMessageId)]
        + [Markup(replyMarkup)];
      ghost var before, done := payload.values, [];
      if duration.Some? {
        payload.Add("duration", Format.Itoa(duration.value));
      }
      AddEachStep(before, done, Number("duration", duration), payload.values);
      done := done + [Number("duration", duration)];
      if caption.Some? {
        payload.Add("caption", caption.value);
      }
      AddEachStep(before, done, Text("caption", caption), payload.values);
      done := done + [Text("caption", caption)];
      if replyToMessageId.Some? {
        payload.Add("reply_to_message_id", Format.Itoa(replyToMessageId.value));
      }
      AddEachStep(before, done, Number("reply_to_message_id", replyToMessageId), payload.values);
      done := done + [Number("reply_to_message_id", replyToMessageId)];
      if replyMarkup.Some? {
        var (json, _) := replyMarkup.value.ToJson();
        payload.Add("reply_markup", json);
      }
      AddEachStep(before, done, Markup(replyMarkup), payload.values);
      done := done + [Markup(replyMarkup)];
      AddEachIsAppendAll(before, done);
    }

    /** With every field nil, AppendPayload leaves the payload exactly as it was. */
    lemma NilLeavesPayload(v: Values)
      requires this == SendVideoOptional(None, None, None, None)
      ensures AppendAll(v, Present(Fields())) == v
    {
      AllNilUnchanged(v, Fields());
    }
  }

  /** Optional parameters of sendVoice. */
  datatype SendVoiceOptional = SendVoiceOptional(
    duration: Option<int>,
    replyToMessageId: Option<int>,
    replyMarkup: Option<ReplyMarkup>)
  {
    /** The optional parameters, in the order AppendPayload adds them. */
    function Fields(): seq<Field>
    {
      [ Number("duration", duration),
        Number("reply_to_message_id", replyToMessageId),
        Markup(replyMarkup) ]
    }

    /** Adds one entry per set field to the caller's payload, after what is already there. */
    method AppendPayload(payload: Payload)
      modifies payload
      ensures payload.values == AppendAll(old(payload.values), Present(Fields()))
    {
      assert Fields() == []
        + [Number("duration", duration)]
        + [Number("reply_to_message_id", replyToMessageId)]
        + [Markup(replyMarkup)];
      ghost var before, done := payload.values, [];
      if duration.Some? {
        payload.Add("duration", Format.Itoa(duration.value));
      }
      AddEachStep(before, done, Number("duration", duration), payload.values);
      done := done + [Number("duration", duration)];
      if replyToMessageId.Some? {
        payload.Add("reply_to_message_id", Format.Itoa(replyToMessageId.value));
      }
      AddEachStep(before, done, Number("reply_to_message_id", replyToMessageId), payload.values);
      done := done + [Number("reply_to_message_id", replyToMessageId)];
      if replyMarkup.Some? {
        var (json, _) := replyMarkup.value.ToJson();
        payload.Add("reply_markup", json);
      }
      AddEachStep(before, done, Markup(replyMarkup), payload.values);
      done := done + [Markup(replyMarkup)];
      AddEachIsAppendAll(before, done);
    }

    /** With every field nil, AppendPayload leaves the payload exactly as it was. */
    lemma NilLeavesPayload(v: Values)
      requires this == SendVoiceOptional(None, None, None)
      ensures AppendAll(v, Present(Fields())) == v
    {
      AllNilUnchanged(v, Fields());
    }
  }

  /** Optional parameters of sendLocation. */
  datatype SendLocationOptional = SendLocationOptional(
    replyToMessageId: Option<int>,
    replyMarkup: Option<ReplyMarkup>)
  {
    /** The optional parameters, in the order AppendPayload adds them. */
    function Fields(): seq<Field>
    {
      [ Number("reply_to_message_id", replyToMessageId),
        Markup(replyMarkup) ]
    }

    /** Adds one entry per set field to the caller's payload, after what is already there. */
    method AppendPayload(payload: Payload)
      modifies payload
      ensures payload.values == AppendAll(old(payload.values), Present(Fields()))
    {
      assert Fields() == []
        + [Number("reply_to_message_id", replyToMessageId)]
        + [Markup(replyMarkup)];
      ghost var before, done := payload.values, [];
      if replyToMessageId.Some? {
        payload.Add("reply_to_message_id", Format.Itoa(replyToMessageId.value));
      }
      AddEachStep(before, done, Number("reply_to_message_id", replyToMessageId), payload.values);
      done := done + [Number("reply_to_message_id", replyToMessageId)];
      if replyMarkup.Some? {
        var (json, _) := replyMarkup.value.ToJson();
        payload.Add("reply_markup", json);
      }
      AddEachStep(before, done, Markup(replyMarkup), payload.values);
      done := done + [Markup(replyMarkup)];
      AddEachIsAppendAll(before, done);
    }

    /** With every field nil, AppendPayload leaves the payload exactly as it was. */
    lemma NilLeavesPayload(v: Values)
      requires this == SendLocationOptional(None, None)
      ensures AppendAll(v, Present(Fields())) == v
    {
      AllNilUnchanged(v, Fields());
    }
  }

  /** Optional parameters of getUserProfilePhotos. */
  datatype GetUserProfilePhotosOptional = GetUserProfilePhotosOptional(
    offset: Option<int>,
    limit: Option<int>)
  {
    /** The optional parameters, in the order AppendPayload adds them. */
    function Fields(): seq<Field>
    {
      [ Number("offset", offset),
        Number("limit", limit) ]
    }

    /** Adds one entry per set field to the caller's payload, after what is already there. */
    method AppendPayload(payload: Payload)
      modifies payload
      ensures payload.values == AppendAll(old(payload.values), Present(Fields()))
    {
      assert Fields() == []
        + [Number("offset", offset)]
        + [Number("limit", limit)];
      ghost var before, done := payload.values, [];
      if offset.Some? {
        payload.Add("offset", Format.Itoa(offset.value));
      }
      AddEachStep(before, done, Number("offset", offset), payload.values);
      done := done + [Number("offset", offset)];
      if limit.Some? {
        payload.Add("limit", Format.Itoa(limit.value));
      }
      AddEachStep(before, done, Number("limit", limit), payload.values);
      done := done + [Number("limit", limit)];
      AddEachIsAppendAll(before, done);
    }

    /** With every field nil, AppendPayload leaves the payload exactly as it was. */
    lemma NilLeavesPayload(v: Values)
      requires this == GetUserProfilePhotosOptional(None, None)
      ensures AppendAll(v, Present(Fields())) == v
    {
      AllNilUnchanged(v, Fields());
    }
  }

  /** Optional parameters of answerInlineQuery. */
  datatype AnswerInlineQueryOptional = AnswerInlineQueryOptional(
    cacheTime: Option<int>,
    isPersonal: Option<bool>,
    nextOffset: Option<string>)
  {
    /** The optional parameters, in the order AppendPayload adds them. */
    function Fields(): seq<Field>
    {
      [ Number("cache_time", cacheTime),
        Capitalised("is_personal", isPersonal),
        Text("next_offset", nextOffset) ]
    }

    /** Adds one entry per set field to the caller's payload, after what is already there. */
    method AppendPayload(payload: Payload)
      modifies payload
      ensures payload.values == AppendAll(old(payload.values), Present(Fields()))
    {
      assert Fields() == []
        + [Number("cache_time", cacheTime)]
        + [Capitalised("is_personal", isPersonal)]
        + [Text("next_offset", nextOffset)];
      ghost var before, done := payload.values, [];
      if cacheTime.Some? {
        payload.Add("cache_time", Format.Itoa(cacheTime.value));
      }
      AddEachStep(before, done, Number("cache_time", cacheTime), payload.values);
      done := done + [Number("cache_time", cacheTime)];
      if isPersonal.Some? {
        if isPersonal.value {
          payload.Add("is_personal", "True");
        } else {
          payload.Add("is_personal", "False");
        }
      }
      AddEachStep(before, done, Capitalised("is_personal", isPersonal), payload.values);
      done := done + [Capitalised("is_personal", isPersonal)];
      if nextOffset.Some? {
        payload.Add("next_offset", nextOffset.value);
      }
      AddEachStep(before, done, Text("next_offset", nextOffset), payload.values);
      done := done + [Text("next_offset", nextOffset)];
      AddEachIsAppendAll(before, done);
    }

    /** With every field nil, AppendPayload leaves the payload exactly as it was. */
    lemma NilLeavesPayload(v: Values)
      requires this == AnswerInlineQueryOptional(None, None, None)
      ensures AppendAll(v, Present(Fields())) == v
    {
      AllNilUnchanged(v, Fields());
    }
  }

  // Properties of the structs' payloads.

  /** The text stored for an integer field reads back as the field's value. */
  lemma NumberReadsBack(key: string, o: Option<int>)
    ensures Number(key, o).value.Some? <==> o.Some?
    ensures o.Some? ==> Format.ParseDecimal(Number(key, o).value.value) == o
  {
    if o.Some? {
      Format.ItoaRoundTrip(o.value);
    }
  }

  /**
   * sendMessage's payload: the parse mode verbatim, the two flags as lower-case
   * "true"/"false", the reply id in decimal, the markup as the text ToJson returns
   * whatever error came with it; one value per set field and none per nil field.
   */
  lemma SendMessageEntries(opt: SendMessageOptional, v: Values)
    ensures var r := AppendAll(v, Present(opt.Fields()));
      && Get(r, "parse_mode") == Get(v, "parse_mode") + (if opt.parseMode.Some? then [opt.parseMode.value] else [])
      && Get(r, "disable_web_page_preview") == Get(v, "disable_web_page_preview") +
           (match opt.disableWebPagePreview
            case Some(b) => [if b then "true" else "false"]
            case None => [])
      && Get(r, "disable_notification") == Get(v, "disable_notification") +
           (match opt.disableNotification
            case Some(b) => [if b then "true" else "false"]
            case None => [])
      && Get(r, "reply_to_message_id") == Get(v, "reply_to_message_id") +
           (if opt.replyToMessageId.Some? then [Format.Itoa(opt.replyToMessageId.value)] else [])
      && Get(r, "reply_markup") == Get(v, "reply_markup") +
           (if opt.replyMarkup.Some? then [opt.replyMarkup.value.json] else [])
  {
    var fs := opt.Fields();
    assert DistinctKeys(fs);
    AppendedUnder(v, fs, 0);
    AppendedUnder(v, fs, 1);
    AppendedUnder(v, fs, 2);
    AppendedUnder(v, fs, 3);
    AppendedUnder(v, fs, 4);
  }

  /**
   * With every field set, sendMessage's entries come in the fixed order parse_mode,
   * disable_web_page_preview, disable_notification, reply_to_message_id, reply_markup.
   */
  lemma SendMessageKeyOrder(opt: SendMessageOptional)
    requires opt.parseMode.Some? && opt.disableWebPagePreview.Some? && opt.disableNotification.Some?
    requires opt.replyToMessageId.Some? && opt.replyMarkup.Some?
    ensures KeySeq(Present(opt.Fields())) ==
      ["parse_mode", "disable_web_page_preview", "disable_notification", "reply_to_message_id", "reply_markup"]
  {
    var fs := opt.Fields();
    assert fs[..0] == [];
    assert fs[..1][..0] == fs[..0] && fs[..2][..1] == fs[..1] && fs[..3][..2] == fs[..2];
    assert fs[..4][..3] == fs[..3] && fs[..4] == fs[..|fs| - 1];
    assert KeySeq(Present(fs[..1])) == ["parse_mode"];
    assert KeySeq(Present(fs[..2])) == ["parse_mode", "disable_web_page_preview"];
    assert KeySeq(Present(fs[..3])) == ["parse_mode", "disable_web_page_preview", "disable_notification"];
    assert KeySeq(Present(fs[..4])) ==
      ["parse_mode", "disable_web_page_preview", "disable_notification", "reply_to_message_id"];
  }

  /**
   * answerInlineQuery's payload: cache_time in decimal, is_personal as capitalised
   * "True"/"False", next_offset verbatim.
   */
  lemma AnswerInlineQueryEntries(opt: AnswerInlineQueryOptional, v: Values)
    ensures var r := AppendAll(v, Present(opt.Fields()));
      && Get(r, "cache_time") == Get(v, "cache_time") +
           (if opt.cacheTime.Some? then [Format.Itoa(opt.cacheTime.value)] else [])
      && Get(r, "is_personal") == Get(v, "is_personal") +
           (match opt.isPersonal
            case Some(true) => ["True"]
            case Some(false) => ["False"]
            case None => [])
      && Get(r, "next_offset") == Get(v, "next_offset") + (if opt.nextOffset.Some? then [opt.nextOffset.value] else [])
  {
    var fs := opt.Fields();
    assert DistinctKeys(fs);
    AppendedUnder(v, fs, 0);
    AppendedUnder(v, fs, 1);
    AppendedUnder(v, fs, 2);
  }

  /**
   * getUserProfilePhotos' payload: offset and limit each gain their value's
   * decimal text when set (which reads back as the value, by NumberReadsBack) and
   * nothing when nil.
   */
  lemma GetUserProfilePhotosEntries(opt: GetUserProfilePhotosOptional, v: Values)
    ensures var r := AppendAll(v, Present(opt.Fields()));
      && Get(r, "offset") == Get(v, "offset") + (if opt.offset.Some? then [Format.Itoa(opt.offset.value)] else [])
      && Get(r, "limit") == Get(v, "limit") + (if opt.limit.Some? then [Format.Itoa(opt.limit.value)] else [])
  {
    var fs := opt.Fields();
    assert DistinctKeys(fs);
    AppendedUnder(v, fs, 0);
    AppendedUnder(v, fs, 1);
  }

}
