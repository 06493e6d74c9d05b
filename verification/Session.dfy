/** Live changes to a Realtime session: which fields of a `session.update` may change, and what an accepted one
    does (src/realtime/session.py, src/realtime/serializer.py:291-387). */
module Session {
  import opened Json
  import opened Text
  import opened Wrappers

  /** `_LIVE_SESSION_KEYS`, `_LIVE_AUDIO_KEYS`, `_LIVE_AUDIO_INPUT_KEYS` and `_LIVE_AUDIO_OUTPUT_KEYS`. */
  const LIVE_KEYS: set<string> :=
    {"type", "model", "voice", "turn_detection", "input_audio_transcription", "audio", "input_audio_format",
     "output_audio_format"}
  const LIVE_AUDIO_KEYS: set<string> := {"input", "output"}
  const LIVE_INPUT_KEYS: set<string> := {"format", "turn_detection", "transcription"}
  const LIVE_OUTPUT_KEYS: set<string> := {"format", "voice"}

  const PCM_TYPES: set<string> := {"audio/pcm", "pcm16"}
  const PCM_RATES: set<int> := {8000, 16000, 24000, 48000}

  const TURN_DETECTION: Path := ["turn_detection"]
  const INPUT_TURN_DETECTION: Path := ["audio", "input", "turn_detection"]

  /** Python's `value.get(key)` of an object, and nothing for what is not an object. */
  function Field(j: Json, key: string): Option<Json> {
    if j.Obj? && key in j.fields then Some(j.fields[key]) else None
  }

  function FieldsOf(j: Option<Json>): Fields {
    if j.Some? && j.value.Obj? then j.value.fields else map[]
  }

  function Only(fields: Fields, keys: set<string>): Fields {
    map k | k in fields && k in keys :: fields[k]
  }

  // ----- Validation -----

  predicate ValidFormat(format: Json) {
    || (format.Str? && format.text in PCM_TYPES)
    || (format.Obj?
        && Field(format, "type").Some? && format.fields["type"].Str? && format.fields["type"].text in PCM_TYPES
        && (Field(format, "rate").Some? && !format.fields["rate"].Null? ==>
              format.fields["rate"].Int? && format.fields["rate"].n in PCM_RATES))
  }

  predicate NullOr(j: Option<Json>, valid: Json -> bool) {
    j.None? || j.value.Null? || valid(j.value)
  }

  predicate ValidSide(side: Json) {
    side.Obj? && NullOr(Field(side, "format"), ValidFormat)
  }

  /** `validate_session_audio_config`. */
  predicate ValidAudioConfig(patch: Json) {
    && NullOr(Field(patch, "input_audio_format"), ValidFormat)
    && NullOr(Field(patch, "output_audio_format"), ValidFormat)
    && NullOr(Field(patch, "audio"), (audio: Json) =>
         audio.Obj? && NullOr(Field(audio, "input"), ValidSide) && NullOr(Field(audio, "output"), ValidSide))
  }

  /** `validate_input_transcription`. */
  predicate ValidTranscription(patch: Json) {
    var nested := Get(patch, ["audio", "input", "transcription"]);
    var selector := if nested.None? || nested.value.Null? then Field(patch, "input_audio_transcription") else nested;
    NullOr(selector, (s: Json) => s.Obj? && NullOr(Field(s, "model"), (m: Json) => m.Str?))
  }

  /** `validate_server_vad`: only the plain server mode. */
  predicate ValidServerVad(patch: Json) {
    var plain := Obj(map["type" := Str("server_vad")]);
    && (Get(patch, TURN_DETECTION).Some? ==> Get(patch, TURN_DETECTION).value == plain)
    && (Get(patch, INPUT_TURN_DETECTION).Some? ==> Get(patch, INPUT_TURN_DETECTION).value == plain)
  }

  // ----- What may change -----

  /** The turn detection in force: the one under `audio.input`, else the one at the top. */
  function TurnDetection(view: Json): Json {
    match Get(view, INPUT_TURN_DETECTION)
    case Some(v) => v
    case None => if Get(view, TURN_DETECTION).Some? then Get(view, TURN_DETECTION).value else Null
  }

  /** `unsupported_live_session_fields`: the fields an update would change that cannot change, without order. */
  function Unsupported(patch: Fields, view: Fields, nvidiaKeys: set<string>): set<string> {
    var turn := TurnDetection(Obj(view));
    (if "turn_detection" in patch && patch["turn_detection"] != turn then {"turn_detection"} else {})
    + (set k | k in patch && k !in LIVE_KEYS && k != "nvidia" && (k !in view || patch[k] != view[k]) :: k)
    + (if "nvidia" in patch then UnsupportedNvidia(patch["nvidia"], view, nvidiaKeys) else {})
    + (if "audio" in patch && patch["audio"].Obj? then UnsupportedAudio(patch["audio"].fields, turn) else {})
  }

  function UnsupportedNvidia(value: Json, view: Fields, nvidiaKeys: set<string>): set<string> {
    if !value.Obj? then {"nvidia"}
    else
      var current := FieldsOf(Field(Obj(view), "nvidia"));
      set k | k in value.fields && k in nvidiaKeys && (k !in current || value.fields[k] != current[k]) :: "nvidia." + k
  }

  function UnsupportedAudio(audio: Fields, turn: Json): set<string> {
    var input, output := FieldsOf(Field(Obj(audio), "input")), FieldsOf(Field(Obj(audio), "output"));
    Beyond(audio, LIVE_AUDIO_KEYS, "audio.")
    + Beyond(input, LIVE_INPUT_KEYS, "audio.input.")
    + (if "turn_detection" in input && input["turn_detection"] != turn then {"audio.input.turn_detection"} else {})
    + Beyond(output, LIVE_OUTPUT_KEYS, "audio.output.")
  }

  /** The keys other than the given ones, behind a prefix. */
  function Beyond(fields: Fields, keys: set<string>, prefix: string): set<string> {
    set k | k in fields && k !in keys :: prefix + k
  }

  // ----- What a client may ask for, path by path -----

  predicate MissingOrNull(j: Json, path: Path) {
    Get(j, path) in {None, Some(Null)}
  }

  /** One of the PCM types, alone or as the type of an object whose rate, if it has one, is supported. */
  predicate AllowedFormat(format: Json) {
    || format in {Str("audio/pcm"), Str("pcm16")}
    || (Get(format, ["type"]) in {Some(Str("audio/pcm")), Some(Str("pcm16"))}
        && (MissingOrNull(format, ["rate"])
            || Get(format, ["rate"]).value in {Int(8000), Int(16000), Int(24000), Int(48000)}))
  }

  /** An object of which all that is said is that the server detects turns. */
  ghost predicate PlainServerMode(turn: Json) {
    Get(turn, ["type"]) == Some(Str("server_vad")) && forall k | Get(turn, [k]).Some? :: k == "type"
  }

  /** A selector of a transcription model, which changes nothing. */
  predicate AllowedSelector(selector: Json) {
    selector.Obj? && (MissingOrNull(selector, ["model"]) || Get(selector, ["model"]).value.Str?)
  }

  ghost predicate BlocksWellFormed(patch: Json) {
    forall path | path in {["audio"], ["audio", "input"], ["audio", "output"]} ::
      MissingOrNull(patch, path) || Get(patch, path).value.Obj?
  }

  ghost predicate FormatsWellFormed(patch: Json) {
    forall path | path in {["input_audio_format"], ["output_audio_format"],
                           ["audio", "input", "format"], ["audio", "output", "format"]} ::
      MissingOrNull(patch, path) || AllowedFormat(Get(patch, path).value)
  }

  ghost predicate TurnsWellFormed(patch: Json) {
    forall path | path in {["turn_detection"], ["audio", "input", "turn_detection"]} ::
      Get(patch, path) == None || PlainServerMode(Get(patch, path).value)
  }

  /** Of two transcription selectors only the nested one is looked at. */
  predicate SelectorWellFormed(patch: Json) {
    var path := if MissingOrNull(patch, ["audio", "input", "transcription"]) then ["input_audio_transcription"]
                else ["audio", "input", "transcription"];
    MissingOrNull(patch, path) || AllowedSelector(Get(patch, path).value)
  }

  /** What stands at every path that is looked at has the form it must have. */
  ghost predicate WellFormed(patch: Json) {
    BlocksWellFormed(patch) && FormatsWellFormed(patch) && SelectorWellFormed(patch) && TurnsWellFormed(patch)
  }

  /** What the patch has at a path the view has there too. */
  predicate Settled(view: Fields, patch: Fields, path: Path) {
    Get(Obj(patch), path) == Get(Obj(view), path)
  }

  ghost predicate TopPermitted(view: Fields, patch: Fields) {
    forall k | Get(Obj(patch), [k]).Some? && k != "nvidia" ::
      || k in {"type", "model", "voice", "turn_detection", "input_audio_transcription", "input_audio_format",
               "output_audio_format", "audio"}
      || Settled(view, patch, [k])
  }

  ghost predicate AudioPermitted(patch: Json) {
    && (forall k | Get(patch, ["audio", k]).Some? :: k in {"input", "output"})
    && (forall k | Get(patch, ["audio", "input", k]).Some? :: k in {"format", "transcription", "turn_detection"})
    && (forall k | Get(patch, ["audio", "output", k]).Some? :: k in {"format", "voice"})
  }

  /** Vendor fields that clients can set are set so already; others do not matter. */
  ghost predicate VendorPermitted(view: Fields, patch: Fields, nvidiaKeys: set<string>) {
    && (Get(Obj(patch), ["nvidia"]).Some? ==> Get(Obj(patch), ["nvidia"]).value.Obj?)
    && (forall k | k in nvidiaKeys && Get(Obj(patch), ["nvidia", k]).Some? :: Settled(view, patch, ["nvidia", k]))
  }

  /** Turn detection is asked for as it is in force. */
  ghost predicate TurnsPermitted(view: Json, patch: Json) {
    var nested := Get(view, ["audio", "input", "turn_detection"]);
    var turn := if nested.Some? then nested else Get(view, ["turn_detection"]);
    forall path | path in {["turn_detection"], ["audio", "input", "turn_detection"]} && Get(patch, path).Some? ::
      Get(patch, path).value == turn.GetOr(Null)
  }

  /** The patch asks for nothing but what can change and what already is so. */
  ghost predicate Permitted(view: Fields, patch: Fields, nvidiaKeys: set<string>) {
    && TopPermitted(view, patch) && AudioPermitted(Obj(patch)) && VendorPermitted(view, patch, nvidiaKeys)
    && TurnsPermitted(Obj(view), Obj(patch))
  }

  /** `live_session_patch`: what of the patch takes effect. */
  function LivePatch(patch: Fields): Fields {
    var audio := LiveAudio(FieldsOf(Field(Obj(patch), "audio")));
    Only(patch, LIVE_KEYS - {"audio", "turn_detection"}) + if audio != map[] then map["audio" := Obj(audio)] else map[]
  }

  function LiveAudio(audio: Fields): Fields {
    var input := Only(FieldsOf(Field(Obj(audio), "input")), LIVE_INPUT_KEYS - {"turn_detection"});
    var output := Only(FieldsOf(Field(Obj(audio), "output")), LIVE_OUTPUT_KEYS);
    (if input != map[] then map["input" := Obj(input)] else map[])
    + (if output != map[] then map["output" := Obj(output)] else map[])
  }

  /** What a tree has under `audio.<side>`. */
  function Side(j: Json, side: string): Fields {
    FieldsOf(Field(Obj(FieldsOf(Field(j, "audio"))), side))
  }

  lemma SideGet(j: Json, path: Path)
    requires |path| >= 3 && path[0] == "audio"
    ensures Get(j, path) == Get(Obj(Side(j, path[1])), path[2..])
  {
    assert path[1..][1..] == path[2..];
    if Field(j, "audio").Some? && Field(Field(j, "audio").value, path[1]).Some? {
      assert Get(j, path) == Get(Field(Field(j, "audio").value, path[1]).value, path[2..]);
    }
  }

  lemma LiveSide(patch: Fields)
    ensures Side(Obj(LivePatch(patch)), "input") ==
      Only(Side(Obj(patch), "input"), LIVE_INPUT_KEYS - {"turn_detection"})
    ensures Side(Obj(LivePatch(patch)), "output") == Only(Side(Obj(patch), "output"), LIVE_OUTPUT_KEYS)
  {
  }

  predicate IsLeaf(j: Json, path: Path) {
    Get(j, path).Some? && !Get(j, path).value.Obj?
  }

  predicate LeafOf(patch: Fields, path: Path) {
    IsLeaf(Obj(patch), path)
  }

  // ----- Applying an accepted update -----

  /** The older format fields stand for the formats under `audio`. */
  function FoldFormat(patch: Fields, key: string, side: string): Fields {
    if key !in patch then patch
    else
      var block := FieldsOf(Field(Obj(FieldsOf(Field(Obj(patch), "audio"))), side))["format" := patch[key]];
      (patch - {key})["audio" := Obj(FieldsOf(Field(Obj(patch), "audio"))[side := Obj(block)])]
  }

  function FoldFormats(patch: Fields): Fields {
    FoldFormat(FoldFormat(patch, "input_audio_format", "input"), "output_audio_format", "output")
  }

  function RequestedVoice(patch: Fields): string {
    var nested := Get(Obj(patch), ["audio", "output", "voice"]);
    if nested.Some? && nested.value.Str? then Strip(nested.value.text)
    else if "voice" in patch && patch["voice"].Str? then Strip(patch["voice"].text)
    else ""
  }

  /** The catalog's answer for a voice; where it has none the voice itself is used. */
  function Answer(catalog: string -> string, voice: string): string {
    if voice == "" then "" else if catalog(voice) != "" then catalog(voice) else voice
  }

  /** The voice that is set for an update, if any. */
  function FoundVoice(patch: Fields, catalog: string -> string): string {
    Answer(catalog, RequestedVoice(patch))
  }

  function WithVoice(patch: Fields, voice: string): Fields {
    var top := if "voice" in patch && patch["voice"].Str? then patch["voice" := Str(voice)] else patch;
    var output := Side(Obj(top), "output");
    if "voice" !in output then top
    else
      var audio := FieldsOf(Field(Obj(top), "audio"));
      top["audio" := Obj(audio["output" := Obj(output["voice" := Str(voice)])])]
  }

  function ViewWithVoice(view: Fields, voice: string): Fields {
    var audio := FieldsOf(Field(Obj(view), "audio"));
    var output := Side(Obj(view), "output")["voice" := Str(voice)];
    view["audio" := Obj(audio["output" := Obj(output)])]["voice" := Str(voice)]
  }

  /** Only the vendor fields that clients may see. */
  function PublicView(view: Fields, nvidiaKeys: set<string>): Fields {
    if "nvidia" in view && view["nvidia"].Obj?
    then view["nvidia" := Obj(Only(view["nvidia"].fields, nvidiaKeys + {"server_tools"}))]
    else view
  }

  /** The patch that is merged for an accepted update, given the voice that was found for it. */
  function Effective(patch: Fields, voice: string): Fields {
    var folded := FoldFormats(LivePatch(patch));
    if voice != "" then WithVoice(folded, voice) else folded
  }

  /** The view after an accepted update. */
  function Applied(view: Fields, patch: Fields, voice: string, nvidiaKeys: set<string>): Fields {
    var merged := Merge(Obj(view), Obj(Effective(patch, voice))).fields;
    PublicView(if voice != "" then ViewWithVoice(merged, voice) else merged, nvidiaKeys)
  }

  predicate ObjectOrNull(j: Option<Json>) {
    j.None? || j.value.Null? || j.value.Obj?
  }

  /** Where the view has audio blocks and vendor fields, they are objects or null. */
  predicate WellShaped(view: Fields) {
    && ObjectOrNull(Get(Obj(view), ["audio"]))
    && ObjectOrNull(Get(Obj(view), ["audio", "input"]))
    && ObjectOrNull(Get(Obj(view), ["audio", "output"]))
    && ObjectOrNull(Get(Obj(view), ["nvidia"]))
  }

  datatype Reply = Updated(view: Fields) | Refused(code: string)

  class SessionUpdates {
    var view: Fields
    var ttsVoice: Option<string>
    const nvidiaKeys: set<string>

    ghost predicate Valid()
      reads this
    {
      WellShaped(view)
    }

    constructor (initial: Fields, vendorKeys: set<string>)
      requires WellShaped(initial)
      ensures Valid() && view == initial && nvidiaKeys == vendorKeys
    {
      view, ttsVoice, nvidiaKeys := initial, None, vendorKeys;
    }

    /** `_deserialize_session_update`; the second result is the voice sent on to speech synthesis. */
    method Update(session: Option<Json>, catalog: string -> string) returns (reply: Reply, voice: Option<string>)
      requires Valid()
      modifies this`view, this`ttsVoice
      ensures Valid()
      ensures reply.Refused? ==> view == old(view) && ttsVoice == old(ttsVoice) && voice == None
      ensures reply == Refused("invalid_session") <==>
        session.None? || !session.value.Obj? || !WellFormed(session.value)
      ensures reply == Refused("unsupported_live_session_update") <==>
        reply != Refused("invalid_session") && !Permitted(old(view), session.value.fields, nvidiaKeys)
      ensures reply.Updated? ==>
        var patch := session.value.fields;
        var found := FoundVoice(patch, catalog);
        && view == Applied(old(view), patch, found, nvidiaKeys) && reply == Updated(view)
        && (if found == "" then voice == None && ttsVoice == old(ttsVoice)
          else voice == Some(found) && ttsVoice == Some(found))
    {
      hide WellFormed, Permitted, Unsupported, ValidAudioConfig, ValidTranscription, ValidServerVad;
      if session.None? || !session.value.Obj? {
        return Refused("invalid_session"), None;
      }
      WellFormedExactly(session.value);
      PermittedExactly(view, session.value.fields, nvidiaKeys);
      if !ValidAudioConfig(session.value) || !ValidTranscription(session.value) || !ValidServerVad(session.value) {
        return Refused("invalid_session"), None;
      }
      if Unsupported(session.value.fields, view, nvidiaKeys) != {} {
        return Refused("unsupported_live_session_update"), None;
      }
      var patch := FoldFormats(LivePatch(session.value.fields));
      var asked := RequestedVoice(patch);
      RequestSurvives(session.value.fields);
      var found := if asked == "" then "" else if catalog(asked) != "" then catalog(asked) else asked;
      if found != "" {
        ttsVoice := Some(found);
        patch := WithVoice(patch, found);
      }
      ShapeKept(view, session.value.fields, found, nvidiaKeys);
      view := MergeSessionPatch(view, patch);
      if found != "" {
        view := ViewWithVoice(view, found);
      }
      view := PublicView(view, nvidiaKeys);
      reply := Updated(view);
      voice := if found != "" then Some(found) else None;
    }
  }

  // ----- The checks are exactly these -----

  lemma GetOne(j: Json, k: string)
    ensures Get(j, [k]) == Field(j, k)
  {
    assert [k][1..] == [];
  }

  lemma GetThree(j: Json, k: string, l: string, m: string)
    ensures Get(j, [k, l, m]) ==
      if Get(j, [k, l]).Some? then Field(Get(j, [k, l]).value, m) else None
  {
    GetTwo(j, k, l);
    assert [k, l, m][1..] == [l, m];
    if Field(j, k).Some? {
      GetTwo(Field(j, k).value, l, m);
    }
  }

  lemma FormatExactly(format: Json)
    ensures ValidFormat(format) <==> AllowedFormat(format)
  {
    GetOne(format, "type");
    GetOne(format, "rate");
  }

  lemma AudioConfigExactly(patch: Json)
    ensures ValidAudioConfig(patch) <==> BlocksWellFormed(patch) && FormatsWellFormed(patch)
  {
    hide ValidFormat, AllowedFormat, Get;
    forall format: Json ensures ValidFormat(format) <==> AllowedFormat(format) {
      FormatExactly(format);
    }
    GetOne(patch, "input_audio_format");
    GetOne(patch, "output_audio_format");
    GetOne(patch, "audio");
    GetTwo(patch, "audio", "input");
    GetTwo(patch, "audio", "output");
    GetThree(patch, "audio", "input", "format");
    GetThree(patch, "audio", "output", "format");
  }

  lemma TranscriptionExactly(patch: Json)
    ensures ValidTranscription(patch) <==> SelectorWellFormed(patch)
  {
    hide Get;
    var nested := Get(patch, ["audio", "input", "transcription"]);
    GetOne(patch, "input_audio_transcription");
    var selector := if nested.None? || nested.value.Null? then Field(patch, "input_audio_transcription") else nested;
    if selector.Some? {
      SelectorExactly(selector.value);
    }
  }

  lemma SelectorExactly(selector: Json)
    ensures AllowedSelector(selector) <==> selector.Obj? && NullOr(Field(selector, "model"), (m: Json) => m.Str?)
  {
    GetOne(selector, "model");
  }

  lemma ServerVadExactly(patch: Json)
    ensures ValidServerVad(patch) <==> TurnsWellFormed(patch)
  {
    hide Get, PlainServerMode;
    assert TURN_DETECTION == ["turn_detection"] && INPUT_TURN_DETECTION == ["audio", "input", "turn_detection"];
    if Get(patch, TURN_DETECTION).Some? {
      PlainIs(Get(patch, TURN_DETECTION).value);
    }
    if Get(patch, INPUT_TURN_DETECTION).Some? {
      PlainIs(Get(patch, INPUT_TURN_DETECTION).value);
    }
  }

  lemma PlainIs(turn: Json)
    ensures PlainServerMode(turn) <==> turn == Obj(map["type" := Str("server_vad")])
  {
    forall k ensures Get(turn, [k]) == Field(turn, k) {
      GetOne(turn, k);
    }
    if PlainServerMode(turn) {
      assert forall k | k in turn.fields :: Get(turn, [k]).Some?;
      assert turn.fields == map["type" := Str("server_vad")];
    }
  }

  /** The three validators let pass exactly the updates that are well-formed, path by path. */
  lemma {:induction false} WellFormedExactly(patch: Json)
    ensures ValidAudioConfig(patch) && ValidTranscription(patch) && ValidServerVad(patch) <==> WellFormed(patch)
  {
    hide *;
    AudioConfigExactly(patch);
    TranscriptionExactly(patch);
    ServerVadExactly(patch);
    WellFormedIs(patch);
  }

  lemma WellFormedIs(patch: Json)
    ensures WellFormed(patch) <==>
      BlocksWellFormed(patch) && FormatsWellFormed(patch) && SelectorWellFormed(patch) && TurnsWellFormed(patch)
  {
  }

  /** No field is reported as unsupported exactly if every path asks for what can change or already is so. */
  lemma {:induction false} PermittedExactly(view: Fields, patch: Fields, nvidiaKeys: set<string>)
    ensures Unsupported(patch, view, nvidiaKeys) == {} <==> Permitted(view, patch, nvidiaKeys)
  {
    hide Unsupported, TopPermitted, AudioPermitted, VendorPermitted, TurnsPermitted, UnsupportedNvidia,
         UnsupportedAudio, TurnDetection;
    UnsupportedTop(view, patch, nvidiaKeys);
    TopExactly(view, patch);
    NvidiaExactly(view, patch, nvidiaKeys);
    AudioExactly(patch, TurnDetection(Obj(view)));
    TurnsExactly(view, patch);
  }

  lemma TopExactly(view: Fields, patch: Fields)
    ensures TopPermitted(view, patch) <==>
      forall k | k in patch && k !in LIVE_KEYS && k != "nvidia" :: Field(Obj(view), k) == Some(patch[k])
  {
    hide Get;
    forall k ensures Get(Obj(patch), [k]) == Field(Obj(patch), k) && Get(Obj(view), [k]) == Field(Obj(view), k) {
      GetOne(Obj(patch), k);
      GetOne(Obj(view), k);
    }
    assert forall k | k in patch :: Get(Obj(patch), [k]).Some?;
  }

  lemma TurnsExactly(view: Fields, patch: Fields)
    ensures TurnsPermitted(Obj(view), Obj(patch)) <==>
      && ("turn_detection" in patch ==> patch["turn_detection"] == TurnDetection(Obj(view)))
      && (Get(Obj(patch), INPUT_TURN_DETECTION).Some? ==>
            Get(Obj(patch), INPUT_TURN_DETECTION).value == TurnDetection(Obj(view)))
  {
    hide Get;
    assert TURN_DETECTION == ["turn_detection"] && INPUT_TURN_DETECTION == ["audio", "input", "turn_detection"];
    GetOne(Obj(patch), "turn_detection");
  }

  lemma UnsupportedTop(view: Fields, patch: Fields, nvidiaKeys: set<string>)
    ensures Unsupported(patch, view, nvidiaKeys) == {} <==>
      && ("turn_detection" in patch ==> patch["turn_detection"] == TurnDetection(Obj(view)))
      && (forall k | k in patch && k !in LIVE_KEYS && k != "nvidia" :: Field(Obj(view), k) == Some(patch[k]))
      && ("nvidia" in patch ==> UnsupportedNvidia(patch["nvidia"], view, nvidiaKeys) == {})
      && ("audio" in patch && patch["audio"].Obj? ==>
            UnsupportedAudio(patch["audio"].fields, TurnDetection(Obj(view))) == {})
  {
    hide TurnDetection, UnsupportedNvidia, UnsupportedAudio;
    var bad := set k | k in patch && k !in LIVE_KEYS && k != "nvidia" && (k !in view || patch[k] != view[k]) :: k;
    assert bad == {} <==> forall k | k in patch && k !in LIVE_KEYS && k != "nvidia" :: k !in bad;
  }

  lemma NvidiaExactly(view: Fields, patch: Fields, nvidiaKeys: set<string>)
    ensures ("nvidia" in patch ==> UnsupportedNvidia(patch["nvidia"], view, nvidiaKeys) == {}) <==>
      VendorPermitted(view, patch, nvidiaKeys)
  {
    GetOne(Obj(patch), "nvidia");
    forall k ensures Get(Obj(patch), ["nvidia", k]) ==
        (if "nvidia" in patch then Field(patch["nvidia"], k) else None)
      && Get(Obj(view), ["nvidia", k]) == Field(Obj(FieldsOf(Field(Obj(view), "nvidia"))), k)
    {
      GetTwo(Obj(patch), "nvidia", k);
      GetTwo(Obj(view), "nvidia", k);
    }
    if "nvidia" in patch && patch["nvidia"].Obj? {
      var value, current := patch["nvidia"], FieldsOf(Field(Obj(view), "nvidia"));
      var bad := set k | k in value.fields && k in nvidiaKeys && (k !in current || value.fields[k] != current[k]) :: k;
      assert UnsupportedNvidia(value, view, nvidiaKeys) == set k | k in bad :: "nvidia." + k;
      assert bad == {} <==> UnsupportedNvidia(value, view, nvidiaKeys) == {} by {
        if k :| k in bad {
          assert "nvidia." + k in UnsupportedNvidia(value, view, nvidiaKeys);
        }
      }
      assert bad == {} <==> forall k | k in nvidiaKeys && k in value.fields :: k !in bad;
    }
  }

  lemma NothingBeyond(fields: Fields, keys: set<string>, prefix: string)
    ensures Beyond(fields, keys, prefix) == {} <==> forall k | k in fields :: k in keys
  {
    if k :| k in fields && k !in keys {
      assert prefix + k in Beyond(fields, keys, prefix);
    }
  }

  lemma AudioExactly(patch: Fields, turn: Json)
    ensures ("audio" in patch && patch["audio"].Obj? ==> UnsupportedAudio(patch["audio"].fields, turn) == {}) <==>
      && AudioPermitted(Obj(patch))
      && (Get(Obj(patch), INPUT_TURN_DETECTION).Some? ==> Get(Obj(patch), INPUT_TURN_DETECTION).value == turn)
  {
    hide Get, UnsupportedAudio, AudioPermitted, Beyond;
    var p, audio := Obj(patch), AudioOf(patch);
    AudioKeys(patch);
    NothingBeyond(audio, LIVE_AUDIO_KEYS, "audio.");
    NothingBeyond(Side(p, "input"), LIVE_INPUT_KEYS, "audio.input.");
    NothingBeyond(Side(p, "output"), LIVE_OUTPUT_KEYS, "audio.output.");
    UnsupportedAudioIs(audio, turn);
    SideFieldGet(p, "input", "turn_detection");
  }

  lemma UnsupportedAudioIs(audio: Fields, turn: Json)
    ensures UnsupportedAudio(audio, turn) == {} <==>
      var input, output := FieldsOf(Field(Obj(audio), "input")), FieldsOf(Field(Obj(audio), "output"));
      && Beyond(audio, LIVE_AUDIO_KEYS, "audio.") == {} && Beyond(input, LIVE_INPUT_KEYS, "audio.input.") == {}
      && Beyond(output, LIVE_OUTPUT_KEYS, "audio.output.") == {}
      && ("turn_detection" in input ==> input["turn_detection"] == turn)
  {
    hide Beyond;
  }

  lemma AudioKeys(patch: Fields)
    ensures AudioPermitted(Obj(patch)) <==>
      && (forall k | k in AudioOf(patch) :: k in LIVE_AUDIO_KEYS)
      && (forall k | k in Side(Obj(patch), "input") :: k in LIVE_INPUT_KEYS)
      && (forall k | k in Side(Obj(patch), "output") :: k in LIVE_OUTPUT_KEYS)
  {
    hide Get;
    var p := Obj(patch);
    forall k ensures Get(p, ["audio", k]).Some? <==> k in AudioOf(patch) {
      GetTwo(p, "audio", k);
    }
    forall k ensures Get(p, ["audio", "input", k]).Some? <==> k in Side(p, "input") {
      SideFieldGet(p, "input", k);
    }
    forall k ensures Get(p, ["audio", "output", k]).Some? <==> k in Side(p, "output") {
      SideFieldGet(p, "output", k);
    }
  }

  // ----- What an accepted update leaves alone -----

  /** A patch of live fields only, with objects where the audio blocks belong and no turn detection. */
  predicate LiveShaped(patch: Fields) {
    && patch.Keys <= LIVE_KEYS - {"turn_detection"}
    && ("audio" in patch ==> patch["audio"].Obj? && AudioShaped(patch["audio"].fields))
  }

  predicate AudioShaped(audio: Fields) {
    && audio.Keys <= LIVE_AUDIO_KEYS
    && (forall side | side in audio :: audio[side].Obj?)
    && FieldsOf(Field(Obj(audio), "input")).Keys <= LIVE_INPUT_KEYS - {"turn_detection"}
    && FieldsOf(Field(Obj(audio), "output")).Keys <= LIVE_OUTPUT_KEYS
  }

  lemma LivePatchShaped(patch: Fields)
    ensures LiveShaped(LivePatch(patch))
  {
  }

  lemma FoldShaped(patch: Fields, key: string, side: string)
    requires LiveShaped(patch) && key in {"input_audio_format", "output_audio_format"} && side in LIVE_AUDIO_KEYS
    ensures LiveShaped(FoldFormat(patch, key, side))
  {
    if key in patch {
      var audio := FieldsOf(Field(Obj(patch), "audio"));
      var block := FieldsOf(Field(Obj(audio), side))["format" := patch[key]];
      assert AudioShaped(audio);
      assert AudioShaped(audio[side := Obj(block)]);
    }
  }

  lemma WithVoiceShaped(patch: Fields, voice: string)
    requires LiveShaped(patch)
    ensures LiveShaped(WithVoice(patch, voice))
  {
    if "voice" in Side(Obj(patch), "output") {
      var audio := FieldsOf(Field(Obj(patch), "audio"));
      assert AudioShaped(audio["output" := Obj(Side(Obj(patch), "output")["voice" := Str(voice)])]);
    }
  }

  lemma EffectiveShaped(patch: Fields, voice: string)
    ensures LiveShaped(Effective(patch, voice))
  {
    hide LiveShaped, LivePatch, FoldFormat, WithVoice;
    var live := LivePatch(patch);
    LivePatchShaped(patch);
    FoldShaped(live, "input_audio_format", "input");
    FoldShaped(FoldFormat(live, "input_audio_format", "input"), "output_audio_format", "output");
    WithVoiceShaped(FoldFormats(live), voice);
  }

  lemma MergeObjects(base: Fields, patch: Fields)
    ensures Merge(Obj(base), Obj(patch)).Obj?
  {
  }

  lemma MergeShape(base: Json, patch: Json, path: Path)
    requires ObjectOrNull(Get(base, path)) && (Get(patch, path).Some? ==> Get(patch, path).value.Obj?)
    ensures ObjectOrNull(Get(Merge(base, patch), path))
  {
    MergeReads(base, patch, path);
  }

  lemma LiveShapedBlocks(patch: Fields, side: string)
    requires LiveShaped(patch) && side in LIVE_AUDIO_KEYS
    ensures Get(Obj(patch), ["audio"]).Some? ==> Get(Obj(patch), ["audio"]).value.Obj?
    ensures Get(Obj(patch), ["audio", side]).Some? ==> Get(Obj(patch), ["audio", side]).value.Obj?
    ensures Get(Obj(patch), ["nvidia"]) == None
  {
    assert ["audio"][1..] == [] && ["audio", side][1..] == [side] && [side][1..] == [];
    if "audio" in patch {
      assert Get(Obj(patch), ["audio", side]) == Get(patch["audio"], [side]);
      assert Get(patch["audio"], [side]) == Field(patch["audio"], side);
    }
  }

  lemma MergeWellShaped(view: Fields, patch: Fields)
    requires WellShaped(view) && LiveShaped(patch)
    ensures Merge(Obj(view), Obj(patch)).Obj? && WellShaped(Merge(Obj(view), Obj(patch)).fields)
  {
    hide Merge, Get, LiveShaped;
    MergeObjects(view, patch);
    LiveShapedBlocks(patch, "input");
    LiveShapedBlocks(patch, "output");
    MergeShape(Obj(view), Obj(patch), ["audio"]);
    MergeShape(Obj(view), Obj(patch), ["audio", "input"]);
    MergeShape(Obj(view), Obj(patch), ["audio", "output"]);
    MergeShape(Obj(view), Obj(patch), ["nvidia"]);
  }

  lemma GetTwo(j: Json, k: string, l: string)
    ensures Get(j, [k, l]) == if Field(j, k).Some? then Field(Field(j, k).value, l) else None
  {
    assert [k, l][1..] == [l] && [l][1..] == [];
    if Field(j, k).Some? {
      var inner := Field(j, k).value;
      assert Get(j, [k, l]) == Get(inner, [l]);
      assert inner.Obj? && l in inner.fields ==> Get(inner, [l]) == Get(inner.fields[l], []);
    }
  }

  lemma VoiceWellShaped(view: Fields, voice: string, path: Path)
    requires ObjectOrNull(Get(Obj(view), path))
    requires path in {["audio"], ["audio", "input"], ["audio", "output"], ["nvidia"]}
    ensures ObjectOrNull(Get(Obj(ViewWithVoice(view, voice)), path))
  {
    assert path[1..] == [] || path[1..][1..] == [];
    var v, v' := Obj(view), Obj(ViewWithVoice(view, voice));
    if path[0] == "audio" && |path| == 2 {
      assert path == ["audio", path[1]];
      GetTwo(v, "audio", path[1]);
      GetTwo(v', "audio", path[1]);
    }
  }

  lemma PublicWellShaped(view: Fields, nvidiaKeys: set<string>, path: Path)
    requires ObjectOrNull(Get(Obj(view), path))
    requires path in {["audio"], ["audio", "input"], ["audio", "output"], ["nvidia"]}
    ensures ObjectOrNull(Get(Obj(PublicView(view, nvidiaKeys)), path))
  {
    assert path[1..] == [] || path[1..][1..] == [];
  }

  lemma ShapeKept(view: Fields, patch: Fields, voice: string, nvidiaKeys: set<string>)
    requires WellShaped(view)
    ensures Merge(Obj(view), Obj(Effective(patch, voice))).Obj?
    ensures WellShaped(Applied(view, patch, voice, nvidiaKeys))
  {
    hide Merge, Get, Effective, ViewWithVoice, PublicView, LiveShaped, ObjectOrNull;
    EffectiveShaped(patch, voice);
    MergeWellShaped(view, Effective(patch, voice));
    var merged := Merge(Obj(view), Obj(Effective(patch, voice))).fields;
    var spoken := if voice != "" then ViewWithVoice(merged, voice) else merged;
    forall path: Path | path in {["audio"], ["audio", "input"], ["audio", "output"], ["nvidia"]}
      ensures ObjectOrNull(Get(Obj(PublicView(spoken, nvidiaKeys)), path))
    {
      VoiceWellShaped(merged, voice, path);
      PublicWellShaped(spoken, nvidiaKeys, path);
    }
  }

  /** The same turn detection is in force, and every field that is not live reads the same. */
  ghost predicate SameBeyondLive(view: Fields, view': Fields) {
    && TurnDetection(Obj(view')) == TurnDetection(Obj(view))
    && (forall k | k !in LIVE_KEYS && k != "nvidia" :: Field(Obj(view'), k) == Field(Obj(view), k))
  }

  lemma MergeLeavesAlone(view: Fields, patch: Fields)
    requires LiveShaped(patch)
    ensures SameBeyondLive(view, Merge(Obj(view), Obj(patch)).fields)
    ensures Field(Merge(Obj(view), Obj(patch)), "nvidia") == Field(Obj(view), "nvidia")
  {
    var p := Obj(patch);
    assert INPUT_TURN_DETECTION[1..][1..] == ["turn_detection"];
    assert Untouched(p, TURN_DETECTION);
    if "audio" in patch && "input" in patch["audio"].fields {
      assert Untouched(patch["audio"].fields["input"], ["turn_detection"]);
    }
    assert Untouched(p, INPUT_TURN_DETECTION);
    MergeReads(Obj(view), p, TURN_DETECTION);
    MergeReads(Obj(view), p, INPUT_TURN_DETECTION);
    UntouchedAbsent(p, TURN_DETECTION);
    UntouchedAbsent(p, INPUT_TURN_DETECTION);
  }

  lemma VoiceLeavesAlone(view: Fields, voice: string)
    ensures SameBeyondLive(view, ViewWithVoice(view, voice))
    ensures Field(Obj(ViewWithVoice(view, voice)), "nvidia") == Field(Obj(view), "nvidia")
  {
    var v, v' := Obj(view), Obj(ViewWithVoice(view, voice));
    SideGet(v, INPUT_TURN_DETECTION);
    SideGet(v', INPUT_TURN_DETECTION);
    assert Side(v', "input") == Side(v, "input");
  }

  lemma PublicLeavesAlone(view: Fields, nvidiaKeys: set<string>)
    ensures SameBeyondLive(view, PublicView(view, nvidiaKeys))
    ensures forall k | k in nvidiaKeys ::
      Get(Obj(PublicView(view, nvidiaKeys)), ["nvidia", k]) == Get(Obj(view), ["nvidia", k])
  {
    var v, v' := Obj(view), Obj(PublicView(view, nvidiaKeys));
    assert Get(v', INPUT_TURN_DETECTION) == Get(v, INPUT_TURN_DETECTION);
    forall k | k in nvidiaKeys ensures Get(v', ["nvidia", k]) == Get(v, ["nvidia", k]) {
      assert ["nvidia", k][1..] == [k] && [k][1..] == [];
    }
  }

  /** Whatever the patch, applying its live part changes no other field of the view, no vendor field that clients
      may set, and not the turn detection in force. */
  lemma {:induction false} LiveUpdateLeavesAlone(view: Fields, patch: Fields, voice: string, nvidiaKeys: set<string>)
    ensures SameBeyondLive(view, Applied(view, patch, voice, nvidiaKeys))
    ensures forall k | k in nvidiaKeys ::
      Get(Obj(Applied(view, patch, voice, nvidiaKeys)), ["nvidia", k]) == Get(Obj(view), ["nvidia", k])
  {
    hide Merge, Effective, ViewWithVoice, PublicView, TurnDetection, LiveShaped;
    var effective := Effective(patch, voice);
    EffectiveShaped(patch, voice);
    MergeLeavesAlone(view, effective);
    MergeObjects(view, effective);
    var merged := Merge(Obj(view), Obj(effective)).fields;
    VoiceLeavesAlone(merged, voice);
    var spoken := if voice != "" then ViewWithVoice(merged, voice) else merged;
    PublicLeavesAlone(spoken, nvidiaKeys);
    forall k | k in nvidiaKeys ensures Get(Obj(spoken), ["nvidia", k]) == Get(Obj(view), ["nvidia", k]) {
      assert ["nvidia", k][1..] == [k];
    }
  }

  /** Of the vendor fields a view shows nothing but those that clients can set and the server's tools. */
  lemma VendorFieldsHidden(view: Fields, patch: Fields, voice: string, nvidiaKeys: set<string>, key: string)
    requires Get(Obj(Applied(view, patch, voice, nvidiaKeys)), ["nvidia", key]).Some?
    ensures key in nvidiaKeys || key == "server_tools"
  {
    hide Merge, Effective, ViewWithVoice, Get;
    GetTwo(Obj(Applied(view, patch, voice, nvidiaKeys)), "nvidia", key);
  }

  /** Every value of the effective patch is in the view afterwards; where a voice was found, `AfterVoice` says what the
      voice fields read. */
  lemma LiveUpdateTakesEffect(view: Fields, patch: Fields, voice: string, nvidiaKeys: set<string>, path: Path)
    requires path != [] && LeafOf(Effective(patch, voice), path) && (voice == "" || path[0] != "voice")
    ensures Get(Obj(Applied(view, patch, voice, nvidiaKeys)), path) == Get(Obj(Effective(patch, voice)), path)
  {
    hide Merge, Effective, ViewWithVoice, PublicView;
    var effective := Effective(patch, voice);
    EffectiveShaped(patch, voice);
    MergeObjects(view, effective);
    var merged := Merge(Obj(view), Obj(effective));
    MergeReads(Obj(view), Obj(effective), path);
    MergedLeaf(Get(Obj(view), path), Get(Obj(effective), path).value);
    var spoken := if voice != "" then Obj(ViewWithVoice(merged.fields, voice)) else merged;
    if voice != "" {
      SpokenLeaf(merged.fields, effective, patch, voice, path);
    }
    assert path[0] != "nvidia";
    PublicElsewhere(spoken.fields, nvidiaKeys, path);
  }

  lemma MergedLeaf(w: Option<Json>, v: Json)
    requires !v.Obj?
    ensures (match w case Some(x) => Merge(x, v) case None => v) == v
  {
  }

  lemma PublicElsewhere(view: Fields, nvidiaKeys: set<string>, path: Path)
    requires path != [] && path[0] != "nvidia"
    ensures Get(Obj(PublicView(view, nvidiaKeys)), path) == Get(Obj(view), path)
  {
  }

  lemma SpokenLeaf(merged: Fields, effective: Fields, patch: Fields, voice: string, path: Path)
    requires effective == Effective(patch, voice) && LiveShaped(effective) && path != [] && LeafOf(effective, path)
    requires path[0] != "voice" && voice != "" && Get(Obj(merged), path) == Get(Obj(effective), path)
    ensures Get(Obj(ViewWithVoice(merged, voice)), path) == Get(Obj(effective), path)
  {
    hide Effective, LiveShaped;
    var v, v', e := Obj(merged), Obj(ViewWithVoice(merged, voice)), Obj(effective);
    if path[0] == "audio" {
      LeafBelowSides(effective, path);
      SideGet(v, path);
      SideGet(v', path);
      SideGet(e, path);
      assert path[2..][1..] == path[3..];
      VoiceSide(merged, voice);
      EffectiveVoice(patch, voice);
    }
  }

  lemma LeafBelowSides(effective: Fields, path: Path)
    requires LiveShaped(effective) && LeafOf(effective, path) && path != [] && path[0] == "audio"
    ensures |path| >= 3 && path[1] in LIVE_AUDIO_KEYS
  {
    assert Get(Obj(effective), path) == Get(effective["audio"], path[1..]);
    assert path[1..] != [] && path[1] in LIVE_AUDIO_KEYS;
    assert Get(effective["audio"], path[1..]) == Get(effective["audio"].fields[path[1]], path[1..][1..]);
  }

  lemma VoiceSide(view: Fields, voice: string)
    ensures Side(Obj(ViewWithVoice(view, voice)), "input") == Side(Obj(view), "input")
    ensures Side(Obj(ViewWithVoice(view, voice)), "output") == Side(Obj(view), "output")["voice" := Str(voice)]
  {
  }

  lemma EffectiveVoice(patch: Fields, voice: string)
    requires voice != ""
    ensures var output := Side(Obj(Effective(patch, voice)), "output");
            "voice" in output ==> output["voice"] == Str(voice)
  {
    hide FoldFormats, LivePatch;
  }

  // ----- What the effective patch asks for -----

  lemma GetAppend(j: Json, p: Path, q: Path)
    ensures Get(j, p + q) == match Get(j, p) case None => None case Some(v) => Get(v, q)
  {
    if p == [] {
      assert p + q == q;
    } else {
      assert (p + q)[1..] == p[1..] + q;
      if j.Obj? && p[0] in j.fields {
        GetAppend(j.fields[p[0]], p[1..], q);
      }
    }
  }

  /** The value under `audio.<side>.<key>`. */
  function SideField(j: Json, side: string, key: string): Option<Json> {
    Field(Obj(Side(j, side)), key)
  }

  lemma SideFieldGet(j: Json, side: string, key: string)
    ensures Get(j, ["audio", side, key]) == SideField(j, side, key)
  {
    SideGet(j, ["audio", side, key]);
    assert ["audio", side, key][2..] == [key] && [key][1..] == [];
  }

  lemma FoldReads(patch: Fields, key: string, side: string)
    requires key in {"input_audio_format", "output_audio_format"} && side in LIVE_AUDIO_KEYS
    ensures var folded := Obj(FoldFormat(patch, key, side)); var p := Obj(patch);
            && (forall k | k != key && k != "audio" :: Field(folded, k) == Field(p, k))
            && (forall other | other != side :: Side(folded, other) == Side(p, other))
            && (forall k | k != "format" :: SideField(folded, side, k) == SideField(p, side, k))
            && SideField(folded, side, "format") ==
              if key in patch then Some(patch[key]) else SideField(p, side, "format")
  {
  }

  lemma WithVoiceReads(patch: Fields, voice: string)
    ensures var spoken := Obj(WithVoice(patch, voice)); var p := Obj(patch);
            && (forall k | k != "voice" && k != "audio" :: Field(spoken, k) == Field(p, k))
            && Side(spoken, "input") == Side(p, "input")
            && (forall k | k != "voice" :: SideField(spoken, "output", k) == SideField(p, "output", k))
  {
  }

  /** What a format field of the patch, older or nested, comes to. */
  function FormatOf(patch: Fields, key: string, side: string): Option<Json> {
    if key in patch then Some(patch[key]) else SideField(Obj(patch), side, "format")
  }

  lemma FoldedReads(patch: Fields)
    ensures var folded := Obj(FoldFormats(LivePatch(patch))); var p := Obj(patch);
            && (forall k | k in {"type", "model", "voice", "input_audio_transcription"} ::
              Field(folded, k) == Field(p, k))
            && SideField(folded, "input", "format") == FormatOf(patch, "input_audio_format", "input")
            && SideField(folded, "output", "format") == FormatOf(patch, "output_audio_format", "output")
            && SideField(folded, "input", "transcription") == SideField(p, "input", "transcription")
            && SideField(folded, "output", "voice") == SideField(p, "output", "voice")
  {
    hide FoldFormat, LivePatch, Side;
    var live, p := LivePatch(patch), Obj(patch);
    var once := FoldFormat(live, "input_audio_format", "input");
    LiveSide(patch);
    LiveTop(patch);
    FoldReads(live, "input_audio_format", "input");
    FoldReads(once, "output_audio_format", "output");
    assert Field(Obj(live), "input_audio_format") == Field(p, "input_audio_format");
    assert Field(Obj(once), "output_audio_format") == Field(Obj(live), "output_audio_format") ==
      Field(p, "output_audio_format");
    assert SideField(Obj(live), "input", "format") == SideField(p, "input", "format");
    assert SideField(Obj(live), "output", "format") == SideField(p, "output", "format");
    assert SideField(Obj(live), "input", "transcription") == SideField(p, "input", "transcription");
    assert SideField(Obj(live), "output", "voice") == SideField(p, "output", "voice");
  }

  lemma LiveTop(patch: Fields)
    ensures forall key | key in LIVE_KEYS - {"audio", "turn_detection"} ::
      Field(Obj(LivePatch(patch)), key) == Field(Obj(patch), key)
  {
  }

  lemma RequestSurvives(patch: Fields)
    ensures RequestedVoice(FoldFormats(LivePatch(patch))) == RequestedVoice(patch)
  {
    FoldedReads(patch);
    SideFieldGet(Obj(patch), "output", "voice");
    SideFieldGet(Obj(FoldFormats(LivePatch(patch))), "output", "voice");
    assert Field(Obj(FoldFormats(LivePatch(patch))), "voice") == Field(Obj(patch), "voice");
  }

  lemma EffectiveReads(patch: Fields, voice: string)
    ensures var e := Obj(Effective(patch, voice)); var p := Obj(patch);
            && (forall k | k in {"type", "model", "input_audio_transcription"} :: Field(e, k) == Field(p, k))
            && SideField(e, "input", "format") == FormatOf(patch, "input_audio_format", "input")
            && SideField(e, "output", "format") == FormatOf(patch, "output_audio_format", "output")
            && SideField(e, "input", "transcription") == SideField(p, "input", "transcription")
            && (voice == "" ==>
              Field(e, "voice") == Field(p, "voice") &&
                SideField(e, "output", "voice") == SideField(p, "output", "voice"))
  {
    hide FoldFormats, LivePatch, WithVoice;
    FoldedReads(patch);
    WithVoiceReads(FoldFormats(LivePatch(patch)), voice);
  }

  // ----- Of an accepted update, what is in force afterwards -----

  /** Where a value of the patch ends up: the older format fields stand for the nested ones. */
  function Place(path: Path): Path {
    if path != [] && path[0] == "input_audio_format" then ["audio", "input", "format"] + path[1..]
    else if path != [] && path[0] == "output_audio_format" then ["audio", "output", "format"] + path[1..]
    else path
  }

  const VOICE: Path := ["voice"]
  const OUTPUT_VOICE: Path := ["audio", "output", "voice"]

  predicate NamesVoice(v: Json) {
    v.Str? && Strip(v.text) != ""
  }

  /** The value the patch asks for at the path is in force after the update: it reads back where it belongs, a voice
      by the catalog's answer for it, and turn detection wherever it is kept. Vendor fields that clients cannot set
      are exempt. */
  predicate InForce(view: Fields, patch: Fields, catalog: string -> string, nvidiaKeys: set<string>, path: Path)
    requires Get(Obj(patch), path).Some?
  {
    var wanted, found := Get(Obj(patch), path).value, FoundVoice(patch, catalog);
    var after := Obj(Applied(view, patch, found, nvidiaKeys));
    if |path| > 1 && path[0] == "nvidia" && path[1] !in nvidiaKeys then true
    else if TURN_DETECTION <= path then Get(TurnDetection(after), path[1..]) == Some(wanted)
    else if INPUT_TURN_DETECTION <= path then Get(TurnDetection(after), path[3..]) == Some(wanted)
    else if path in {VOICE, OUTPUT_VOICE} && NamesVoice(wanted) then
      found == Answer(catalog, Strip(wanted.text)) && Get(after, path) == Some(Str(found))
    else Get(after, Place(path)) == Some(wanted)
  }

  /** Every value of `part` that is not an object reads the same in `whole`. */
  predicate Covers(whole: Option<Json>, part: Json)
    decreases part
  {
    if part.Obj? then
      forall k | k in part.fields :: Covers(if whole.Some? then Field(whole.value, k) else None, part.fields[k])
    else whole == Some(part)
  }

  function Over(base: Option<Json>, patch: Json): Json {
    match base case None => patch case Some(b) => Merge(b, patch)
  }

  /** Where an audio block belongs the patch has something else than an object, and it is not there afterwards. */
  predicate ErasesBlock(view: Fields, patch: Fields, path: Path, filled: bool) {
    var wanted := Get(Obj(patch), path);
    wanted.Some? && !wanted.value.Obj? && (filled || wanted != Get(Obj(view), path))
  }

  predicate ErasesAudio(view: Fields, patch: Fields, catalog: string -> string) {
    var inputFormat, outputFormat := "input_audio_format" in patch, "output_audio_format" in patch;
    var voice := FoundVoice(patch, catalog) != "";
    || ErasesBlock(view, patch, ["audio"], inputFormat || outputFormat || voice)
    || ErasesBlock(view, patch, ["audio", "input"], inputFormat)
    || ErasesBlock(view, patch, ["audio", "output"], outputFormat || voice)
  }

  /** An older format leaves a leaf of the nested one in force: it has the leaf itself, or it does not touch the
      place and the format in force has the leaf there already. */
  predicate LeavesLeaf(inForce: Option<Json>, older: Json, path: Path, leaf: Json) {
    || Get(older, path) == Some(leaf)
    || (Untouched(older, path) && inForce.Some? && Get(inForce.value, path) == Some(leaf))
  }

  /** When both an older and a nested format are asked for, the older one leaves every leaf of the nested one. */
  ghost predicate FormatsAgree(view: Fields, patch: Fields, key: string, side: string) {
    var nested := SideField(Obj(patch), side, "format");
    key in patch && nested.Some? ==>
      forall path | IsLeaf(nested.value, path) ::
        LeavesLeaf(SideField(Obj(view), side, "format"), patch[key], path, Get(nested.value, path).value)
  }

  lemma MergedTwo(base: Json, patch: Json)
    ensures Merge(base, patch).Obj? <==> patch.Obj?
    ensures !patch.Obj? ==> Merge(base, patch) == patch
  {
  }

  /** A leaf reads back after a merge exactly if it is left. */
  lemma LeafOver(inForce: Option<Json>, older: Json, path: Path, leaf: Json)
    requires !leaf.Obj?
    ensures Get(Over(inForce, older), path) == Some(leaf) <==> LeavesLeaf(inForce, older, path, leaf)
  {
    hide Get, Untouched, Merge;
    if inForce.Some? {
      MergeReads(inForce.value, older, path);
      if Untouched(older, path) {
        UntouchedAbsent(older, path);
      } else if Get(older, path).Some? && Get(inForce.value, path).Some? {
        MergedTwo(Get(inForce.value, path).value, Get(older, path).value);
      }
    }
  }

  /** The voice asked for is the one found; anything else asked for in its place stays only when none is found. */
  predicate VoiceGranted(v: Option<Json>, catalog: string -> string, found: string) {
    v.Some? ==>
      if NamesVoice(v.value) then found == Answer(catalog, Strip(v.value.text))
      else found == "" || Covers(Some(Str(found)), v.value)
  }

  predicate VoicesAgree(patch: Fields, catalog: string -> string) {
    && VoiceGranted(Field(Obj(patch), "voice"), catalog, FoundVoice(patch, catalog))
    && VoiceGranted(SideField(Obj(patch), "output", "voice"), catalog, FoundVoice(patch, catalog))
  }

  lemma {:induction false} CoversReads(whole: Option<Json>, part: Json, path: Path)
    requires Covers(whole, part) && Get(part, path).Some? && !Get(part, path).value.Obj?
    ensures whole.Some? && Get(whole.value, path) == Get(part, path)
    decreases part
  {
    if part.Obj? {
      CoversReads(if whole.Some? then Field(whole.value, path[0]) else None, part.fields[path[0]], path[1..]);
    }
  }

  lemma {:induction false} Uncovered(whole: Option<Json>, part: Json) returns (path: Path)
    requires !Covers(whole, part)
    ensures Get(part, path).Some? && !Get(part, path).value.Obj?
    ensures whole.Some? ==> Get(whole.value, path) != Get(part, path)
    decreases part
  {
    if part.Obj? {
      var k :| k in part.fields && !Covers(if whole.Some? then Field(whole.value, k) else None, part.fields[k]);
      var rest := Uncovered(if whole.Some? then Field(whole.value, k) else None, part.fields[k]);
      path := [k] + rest;
      assert path[1..] == rest;
    } else {
      path := [];
    }
  }

  // ----- The proof, place by place -----

  /** The view after an update reads as the merge did, but for the voice and the vendor fields. */
  lemma AfterElsewhere(view: Fields, patch: Fields, voice: string, nvidiaKeys: set<string>, path: Path)
    requires path != [] && path[0] !in {"nvidia", "voice"}
    requires path[0] == "audio" ==> |path| >= 3 && path[1] in LIVE_AUDIO_KEYS && path[..3] != OUTPUT_VOICE
    ensures var e := Obj(Effective(patch, voice));
            Get(Obj(Applied(view, patch, voice, nvidiaKeys)), path) == Get(Merge(Obj(view), e), path)
  {
    hide Effective, Merge, PublicView;
    MergeObjects(view, Effective(patch, voice));
    var merged := Merge(Obj(view), Obj(Effective(patch, voice))).fields;
    var spoken := if voice != "" then ViewWithVoice(merged, voice) else merged;
    PublicElsewhere(spoken, nvidiaKeys, path);
    if voice != "" {
      SpokenElsewhere(merged, voice, path);
    }
  }

  lemma SpokenElsewhere(merged: Fields, voice: string, path: Path)
    requires path != [] && path[0] != "voice"
    requires path[0] == "audio" ==> |path| >= 3 && path[1] in LIVE_AUDIO_KEYS && path[..3] != OUTPUT_VOICE
    ensures Get(Obj(ViewWithVoice(merged, voice)), path) == Get(Obj(merged), path)
  {
    if path[0] == "audio" {
      SpokenSideElsewhere(merged, voice, path);
    }
  }

  lemma SpokenSideElsewhere(merged: Fields, voice: string, path: Path)
    requires |path| >= 3 && path[0] == "audio" && path[..3] != OUTPUT_VOICE
    requires path[1] == "input" || path[1] == "output"
    ensures Get(Obj(ViewWithVoice(merged, voice)), path) == Get(Obj(merged), path)
  {
    hide *;
    SideGet(Obj(merged), path);
    SideGet(Obj(ViewWithVoice(merged, voice)), path);
    VoiceSide(merged, voice);
    if path[1] == "output" {
      NotTheVoice(path);
      OtherField(Side(Obj(merged), "output"), "voice", Str(voice), path[2..]);
    }
  }

  lemma NotTheVoice(path: Path)
    requires |path| >= 3 && path[0] == "audio" && path[1] == "output" && path[..3] != OUTPUT_VOICE
    ensures path[2] != "voice"
  {
    assert path[..3] == [path[0], path[1], path[2]];
  }

  lemma OtherField(fields: Fields, key: string, v: Json, path: Path)
    requires path != [] && path[0] != key
    ensures Get(Obj(fields[key := v]), path) == Get(Obj(fields), path)
  {
  }

  /** Where a voice was found, it is what the two voice fields read. */
  lemma AfterVoice(view: Fields, patch: Fields, voice: string, nvidiaKeys: set<string>, at: Path, rest: Path)
    requires voice != "" && at in {VOICE, OUTPUT_VOICE}
    ensures Get(Obj(Applied(view, patch, voice, nvidiaKeys)), at + rest) == Get(Str(voice), rest)
  {
    hide Effective, Merge, PublicView;
    MergeObjects(view, Effective(patch, voice));
    var merged := Merge(Obj(view), Obj(Effective(patch, voice))).fields;
    var spoken := ViewWithVoice(merged, voice);
    PublicElsewhere(spoken, nvidiaKeys, at + rest);
    GetAppend(Obj(spoken), at, rest);
    assert VOICE[1..] == [];
    SideFieldGet(Obj(spoken), "output", "voice");
    VoiceSide(merged, voice);
  }

  /** A value of the effective patch is in force where it stands. */
  lemma EffectiveInForce(
    view: Fields, patch: Fields, voice: string, nvidiaKeys: set<string>, at: Path, rest: Path, v: Json)
    requires at != [] && Get(Obj(Effective(patch, voice)), at) == Some(v)
    requires Get(v, rest).Some? && !Get(v, rest).value.Obj? && (voice == "" || at[0] != "voice")
    ensures Get(Obj(Applied(view, patch, voice, nvidiaKeys)), at + rest) == Get(v, rest)
  {
    hide Effective, Applied;
    GetAppend(Obj(Effective(patch, voice)), at, rest);
    LiveUpdateTakesEffect(view, patch, voice, nvidiaKeys, at + rest);
  }

  lemma FieldGet(j: Json, key: string)
    ensures Get(j, [key]) == Field(j, key)
  {
    assert [key][1..] == [];
  }

  /** A leaf below a top-level field. */
  lemma LeafBelow(patch: Fields, path: Path)
    requires LeafOf(patch, path)
    ensures path != [] && path[0] in patch && path == [path[0]] + path[1..]
    ensures Get(patch[path[0]], path[1..]) == Get(Obj(patch), path)
  {
  }

  lemma InForceOlder(
    view: Fields, patch: Fields, catalog: string -> string, nvidiaKeys: set<string>, key: string, rest: Path)
    requires key in {"input_audio_format", "output_audio_format"} && key in patch
    requires Get(patch[key], rest).Some? && !Get(patch[key], rest).value.Obj?
    ensures Get(Obj(Applied(view, patch, FoundVoice(patch, catalog), nvidiaKeys)), Place([key] + rest)) ==
      Get(patch[key], rest)
  {
    hide Applied, FoundVoice, Effective;
    var found := FoundVoice(patch, catalog);
    var side := if key == "input_audio_format" then "input" else "output";
    EffectiveReads(patch, found);
    SideFieldGet(Obj(Effective(patch, found)), side, "format");
    EffectiveInForce(view, patch, found, nvidiaKeys, ["audio", side, "format"], rest, patch[key]);
    assert ([key] + rest)[1..] == rest;
  }

  lemma InForceLive(
    view: Fields, patch: Fields, catalog: string -> string, nvidiaKeys: set<string>, key: string, rest: Path)
    requires key in {"type", "model", "input_audio_transcription"} && key in patch
    requires Get(patch[key], rest).Some? && !Get(patch[key], rest).value.Obj?
    ensures Get(Obj(Applied(view, patch, FoundVoice(patch, catalog), nvidiaKeys)), [key] + rest) ==
      Get(patch[key], rest)
  {
    hide Applied, FoundVoice, Effective;
    var found := FoundVoice(patch, catalog);
    EffectiveReads(patch, found);
    FieldGet(Obj(Effective(patch, found)), key);
    assert Field(Obj(Effective(patch, found)), key) == Field(Obj(patch), key);
    EffectiveInForce(view, patch, found, nvidiaKeys, [key], rest, patch[key]);
  }

  lemma InForceOther(view: Fields, patch: Fields, catalog: string -> string, nvidiaKeys: set<string>, path: Path)
    requires Unsupported(patch, view, nvidiaKeys) == {} && LeafOf(patch, path)
    requires path != [] && path[0] !in LIVE_KEYS && path[0] != "nvidia"
    ensures Get(Obj(Applied(view, patch, FoundVoice(patch, catalog), nvidiaKeys)), path) == Get(Obj(patch), path)
  {
    hide Applied, FoundVoice, TurnDetection;
    LeafBelow(patch, path);
    NonLiveSettled(patch, view, nvidiaKeys, path[0]);
    LiveUpdateLeavesAlone(view, patch, FoundVoice(patch, catalog), nvidiaKeys);
    SameField(Obj(Applied(view, patch, FoundVoice(patch, catalog), nvidiaKeys)), Obj(patch), path);
  }

  lemma PlainPath(path: Path)
    requires path != [] && path[0] !in {"audio", "voice", "nvidia", "turn_detection"}
    ensures !(TURN_DETECTION <= path) && !(INPUT_TURN_DETECTION <= path) && path !in {VOICE, OUTPUT_VOICE}
    ensures path[0] !in {"input_audio_format", "output_audio_format"} ==> Place(path) == path
  {
    assert VOICE[0] == "voice" && OUTPUT_VOICE[0] == "audio";
  }

  lemma InForceTop(view: Fields, patch: Fields, catalog: string -> string, nvidiaKeys: set<string>, path: Path)
    requires Unsupported(patch, view, nvidiaKeys) == {} && LeafOf(patch, path)
    requires path[..1] !in {["audio"], ["voice"], ["nvidia"], ["turn_detection"]}
    ensures InForce(view, patch, catalog, nvidiaKeys, path)
  {
    hide Applied, TurnDetection, FoundVoice, Place;
    LeafBelow(patch, path);
    assert path[..1] == [path[0]];
    PlainPath(path);
    if path[0] in {"input_audio_format", "output_audio_format"} {
      InForceOlder(view, patch, catalog, nvidiaKeys, path[0], path[1..]);
    } else if path[0] in LIVE_KEYS {
      InForceLive(view, patch, catalog, nvidiaKeys, path[0], path[1..]);
    } else {
      InForceOther(view, patch, catalog, nvidiaKeys, path);
    }
  }

  lemma SameField(a: Json, b: Json, path: Path)
    requires path != [] && Field(a, path[0]) == Field(b, path[0])
    ensures Get(a, path) == Get(b, path)
  {
  }

  lemma NonLiveSettled(patch: Fields, view: Fields, nvidiaKeys: set<string>, key: string)
    requires Unsupported(patch, view, nvidiaKeys) == {} && key in patch && key !in LIVE_KEYS && key != "nvidia"
    ensures Field(Obj(view), key) == Some(patch[key])
  {
    assert (key !in view || patch[key] != view[key]) ==> key in Unsupported(patch, view, nvidiaKeys);
  }

  lemma InForceTurn(view: Fields, patch: Fields, catalog: string -> string, nvidiaKeys: set<string>, path: Path)
    requires Unsupported(patch, view, nvidiaKeys) == {} && LeafOf(patch, path) && path[..1] == TURN_DETECTION
    ensures InForce(view, patch, catalog, nvidiaKeys, path)
  {
    hide Applied, TurnDetection, FoundVoice;
    LeafBelow(patch, path);
    assert path[..1][0] == path[0];
    LiveUpdateLeavesAlone(view, patch, FoundVoice(patch, catalog), nvidiaKeys);
    assert patch["turn_detection"] != TurnDetection(Obj(view)) ==>
      "turn_detection" in Unsupported(patch, view, nvidiaKeys);
  }

  lemma InForceNvidia(view: Fields, patch: Fields, catalog: string -> string, nvidiaKeys: set<string>, path: Path)
    requires Unsupported(patch, view, nvidiaKeys) == {} && LeafOf(patch, path) && path[..1] == ["nvidia"]
    ensures InForce(view, patch, catalog, nvidiaKeys, path)
  {
    hide Applied, TurnDetection, FoundVoice, Unsupported, UnsupportedNvidia, NamesVoice;
    LeafBelow(patch, path);
    assert path[..1][0] == path[0];
    var value := patch["nvidia"];
    NvidiaIsObject(patch, view, nvidiaKeys);
    ObjectIsNoLeaf(value, path[1..]);
    if path[1] in nvidiaKeys {
      var key := path[1];
      NvidiaSettled(value, view, nvidiaKeys, key);
      LiveUpdateLeavesAlone(view, patch, FoundVoice(patch, catalog), nvidiaKeys);
      var after := Obj(Applied(view, patch, FoundVoice(patch, catalog), nvidiaKeys));
      GetTwo(Obj(view), "nvidia", key);
      assert path == ["nvidia", key] + path[2..];
      GetAppend(after, ["nvidia", key], path[2..]);
      assert path[1..][1..] == path[2..];
    }
  }

  lemma ObjectIsNoLeaf(j: Json, path: Path)
    requires j.Obj? && Get(j, path).Some? && !Get(j, path).value.Obj?
    ensures path != []
  {
  }

  lemma NvidiaIsObject(patch: Fields, view: Fields, nvidiaKeys: set<string>)
    requires Unsupported(patch, view, nvidiaKeys) == {} && "nvidia" in patch
    ensures patch["nvidia"].Obj? && UnsupportedNvidia(patch["nvidia"], view, nvidiaKeys) == {}
  {
    var value := patch["nvidia"];
    assert UnsupportedNvidia(value, view, nvidiaKeys) <= Unsupported(patch, view, nvidiaKeys);
    assert !value.Obj? ==> "nvidia" in UnsupportedNvidia(value, view, nvidiaKeys);
  }

  lemma NvidiaSettled(value: Json, view: Fields, nvidiaKeys: set<string>, key: string)
    requires value.Obj? && UnsupportedNvidia(value, view, nvidiaKeys) == {} && key in value.fields && key in nvidiaKeys
    ensures Field(Obj(view), "nvidia").Some? && Field(Field(Obj(view), "nvidia").value, key) == Some(value.fields[key])
  {
    var current := FieldsOf(Field(Obj(view), "nvidia"));
    assert (key !in current || value.fields[key] != current[key]) ==>
      "nvidia." + key in UnsupportedNvidia(value, view, nvidiaKeys);
  }

  /** A voice field of the patch that is granted is in force. */
  lemma InForceVoice(
    view: Fields, patch: Fields, catalog: string -> string, nvidiaKeys: set<string>, at: Path, rest: Path, v: Json)
    requires at in {VOICE, OUTPUT_VOICE} && Get(Obj(patch), at) == Some(v) && LeafOf(patch, at + rest)
    requires VoiceGranted(Some(v), catalog, FoundVoice(patch, catalog))
    ensures InForce(view, patch, catalog, nvidiaKeys, at + rest)
  {
    hide Applied, FoundVoice, TurnDetection, Covers;
    var found := FoundVoice(patch, catalog);
    GetAppend(Obj(patch), at, rest);
    VoicePaths(at, rest);
    if found != "" {
      AfterVoice(view, patch, found, nvidiaKeys, at, rest);
      if !NamesVoice(v) {
        CoversReads(Some(Str(found)), v, rest);
      }
    } else {
      VoiceUnchanged(patch, at);
      EffectiveInForceVoice(view, patch, nvidiaKeys, at, rest, v);
    }
  }

  lemma VoicePaths(at: Path, rest: Path)
    requires at in {VOICE, OUTPUT_VOICE}
    ensures Place(at + rest) == at + rest && !(TURN_DETECTION <= at + rest) && !(INPUT_TURN_DETECTION <= at + rest)
    ensures (at + rest)[0] != "nvidia" && (at + rest in {VOICE, OUTPUT_VOICE} <==> rest == [])
  {
    assert rest != [] ==> |at + rest| != 1 && (at == OUTPUT_VOICE ==> |at + rest| > 3);
    assert (at + rest)[0] == at[0];
    if at == OUTPUT_VOICE {
      assert (at + rest)[1] == "output";
    }
    assert at + rest == OUTPUT_VOICE ==> (at + rest)[0] == "audio";
    assert rest == [] ==> at + rest == at;
  }

  lemma VoiceUnchanged(patch: Fields, at: Path)
    requires at in {VOICE, OUTPUT_VOICE}
    ensures Get(Obj(Effective(patch, "")), at) == Get(Obj(patch), at)
  {
    hide Effective;
    EffectiveReads(patch, "");
    FieldGet(Obj(Effective(patch, "")), "voice");
    FieldGet(Obj(patch), "voice");
    SideFieldGet(Obj(Effective(patch, "")), "output", "voice");
    SideFieldGet(Obj(patch), "output", "voice");
  }

  lemma EffectiveInForceVoice(view: Fields, patch: Fields, nvidiaKeys: set<string>, at: Path, rest: Path, v: Json)
    requires at in {VOICE, OUTPUT_VOICE} && Get(Obj(Effective(patch, "")), at) == Some(v)
    requires Get(v, rest).Some? && !Get(v, rest).value.Obj?
    ensures Get(Obj(Applied(view, patch, "", nvidiaKeys)), at + rest) == Get(v, rest)
  {
    EffectiveInForce(view, patch, "", nvidiaKeys, at, rest, v);
  }

  /** A voice field that is not granted has a value that is not in force. */
  lemma DroppedVoice(view: Fields, patch: Fields, catalog: string -> string, nvidiaKeys: set<string>, at: Path, v: Json)
    returns (path: Path)
    requires at in {VOICE, OUTPUT_VOICE} && Get(Obj(patch), at) == Some(v)
    requires !VoiceGranted(Some(v), catalog, FoundVoice(patch, catalog))
    ensures LeafOf(patch, path) && !InForce(view, patch, catalog, nvidiaKeys, path)
  {
    hide Applied, FoundVoice, TurnDetection, Covers;
    var found := FoundVoice(patch, catalog);
    if NamesVoice(v) {
      path := at;
      VoicePaths(at, []);
      assert at + [] == at;
    } else {
      var rest := Uncovered(Some(Str(found)), v);
      path := at + rest;
      GetAppend(Obj(patch), at, rest);
      VoicePaths(at, rest);
      AfterVoice(view, patch, found, nvidiaKeys, at, rest);
      assert rest == [] ==> at + rest == at && Get(v, rest) == Some(v);
    }
  }

  // ----- The audio blocks -----

  function AudioOf(patch: Fields): Fields {
    FieldsOf(Field(Obj(patch), "audio"))
  }

  lemma LiveBlocks(patch: Fields, side: string)
    requires side in LIVE_AUDIO_KEYS
    ensures !("audio" in patch && patch["audio"].Obj?) ==> "audio" !in LivePatch(patch)
    ensures !(side in AudioOf(patch) && AudioOf(patch)[side].Obj?) ==> side !in AudioOf(LivePatch(patch))
  {
  }

  lemma FoldBlocks(patch: Fields, key: string, side: string, other: string)
    requires key != "audio"
    ensures var folded := FoldFormat(patch, key, side);
            && ("audio" in folded <==> "audio" in patch || key in patch)
            && (other in AudioOf(folded) <==> other in AudioOf(patch) || (key in patch && other == side))
            && (forall k | k != key && k != "audio" :: k in folded <==> k in patch)
  {
  }

  lemma WithVoiceBlocks(patch: Fields, voice: string, other: string)
    ensures "audio" in WithVoice(patch, voice) <==> "audio" in patch
    ensures other in AudioOf(WithVoice(patch, voice)) <==> other in AudioOf(patch)
  {
  }

  /** Where the patch has no audio object, the effective patch has a block only for an older format field. */
  lemma EffectiveBlocks(patch: Fields, voice: string, side: string)
    requires side in LIVE_AUDIO_KEYS
    ensures !("audio" in patch && patch["audio"].Obj?) ==>
      ("audio" in Effective(patch, voice) <==> "input_audio_format" in patch || "output_audio_format" in patch)
    ensures !(side in AudioOf(patch) && AudioOf(patch)[side].Obj?) ==>
      (side in AudioOf(Effective(patch, voice)) <==>
        (if side == "input" then "input_audio_format" in patch else "output_audio_format" in patch))
  {
    hide LivePatch, FoldFormat, WithVoice, AudioOf;
    var live := LivePatch(patch);
    var once := FoldFormat(live, "input_audio_format", "input");
    LiveBlocks(patch, side);
    LiveTop(patch);
    assert Field(Obj(live), "input_audio_format") == Field(Obj(patch), "input_audio_format");
    assert Field(Obj(live), "output_audio_format") == Field(Obj(patch), "output_audio_format");
    FoldBlocks(live, "input_audio_format", "input", side);
    FoldBlocks(once, "output_audio_format", "output", side);
    WithVoiceBlocks(FoldFormats(live), voice, side);
  }

  /** The audio object itself. */
  lemma AfterAudio(view: Fields, patch: Fields, voice: string, nvidiaKeys: set<string>)
    ensures var after := Applied(view, patch, voice, nvidiaKeys);
            if "audio" in Effective(patch, voice) || voice != "" then "audio" in after && after["audio"].Obj?
            else Field(Obj(after), "audio") == Field(Obj(view), "audio")
  {
    hide Effective, Merge, PublicView;
    var e := Effective(patch, voice);
    EffectiveShaped(patch, voice);
    MergeObjects(view, e);
    MergeReads(Obj(view), Obj(e), ["audio"]);
    FieldGet(Obj(view), "audio");
    FieldGet(Obj(e), "audio");
    var merged := Merge(Obj(view), Obj(e)).fields;
    FieldGet(Obj(merged), "audio");
    MergedObject(Field(Obj(view), "audio"), Field(Obj(e), "audio"));
    var spoken := if voice != "" then ViewWithVoice(merged, voice) else merged;
    PublicElsewhere(spoken, nvidiaKeys, ["audio"]);
    FieldGet(Obj(spoken), "audio");
    FieldGet(Obj(PublicView(spoken, nvidiaKeys)), "audio");
  }

  lemma MergedObject(w: Option<Json>, v: Option<Json>)
    requires v.Some? ==> v.value.Obj?
    ensures v.Some? ==> Over(w, v.value).Obj?
  {
  }

  /** One side of the audio. */
  lemma AfterSide(view: Fields, patch: Fields, voice: string, nvidiaKeys: set<string>, side: string)
    requires side in LIVE_AUDIO_KEYS
    ensures var after := Get(Obj(Applied(view, patch, voice, nvidiaKeys)), ["audio", side]);
            if side in AudioOf(Effective(patch, voice)) || (voice != "" && side == "output")
              then after.Some? && after.value.Obj?
            else after == Get(Obj(view), ["audio", side])
  {
    hide Effective, Merge, PublicView;
    var e := Effective(patch, voice);
    EffectiveShaped(patch, voice);
    MergeObjects(view, e);
    MergeReads(Obj(view), Obj(e), ["audio", side]);
    GetTwo(Obj(e), "audio", side);
    var merged := Merge(Obj(view), Obj(e)).fields;
    if side in AudioOf(e) {
      MergedObject(Get(Obj(view), ["audio", side]), Get(Obj(e), ["audio", side]));
    } else {
      assert ["audio", side][1..] == [side];
      assert Untouched(Obj(e), ["audio", side]);
    }
    var spoken := if voice != "" then ViewWithVoice(merged, voice) else merged;
    SpokenSide(merged, voice, side);
    PublicElsewhere(spoken, nvidiaKeys, ["audio", side]);
  }

  lemma SpokenSide(merged: Fields, voice: string, side: string)
    ensures var spoken := Get(Obj(ViewWithVoice(merged, voice)), ["audio", side]);
            if side == "output" then spoken.Some? && spoken.value.Obj? else spoken == Get(Obj(merged), ["audio", side])
  {
    GetTwo(Obj(merged), "audio", side);
    GetTwo(Obj(ViewWithVoice(merged, voice)), "audio", side);
  }

  /** What stands where an audio block belongs is in force exactly if it is not erased. */
  lemma InForceBlock(view: Fields, patch: Fields, catalog: string -> string, nvidiaKeys: set<string>, path: Path)
    requires LeafOf(patch, path)
    requires path == ["audio"] || (|path| == 2 && path[0] == "audio" && path[1] in LIVE_AUDIO_KEYS)
    ensures var found := FoundVoice(patch, catalog);
            var inputFormat, outputFormat := "input_audio_format" in patch, "output_audio_format" in patch;
            var filled := if |path| == 1 then inputFormat || outputFormat || found != ""
                          else if path[1] == "input" then inputFormat else outputFormat || found != "";
            InForce(view, patch, catalog, nvidiaKeys, path) <==> !ErasesBlock(view, patch, path, filled)
  {
    hide Applied, FoundVoice, Effective, TurnDetection;
    var found := FoundVoice(patch, catalog);
    var after := Obj(Applied(view, patch, found, nvidiaKeys));
    if |path| == 1 {
      EffectiveBlocks(patch, found, "input");
      FieldGet(Obj(patch), "audio");
      FieldGet(Obj(view), "audio");
      FieldGet(after, "audio");
      AfterAudio(view, patch, found, nvidiaKeys);
    } else {
      assert path == ["audio", path[1]];
      EffectiveBlocks(patch, found, path[1]);
      GetTwo(Obj(patch), "audio", path[1]);
      AfterSide(view, patch, found, nvidiaKeys, path[1]);
    }
    assert Place(path) == path;
  }

  // ----- Formats, and the other fields of a side -----

  function OlderKey(side: string): string {
    if side == "input" then "input_audio_format" else "output_audio_format"
  }

  /** An older format field, merged over the format in force, is the format afterwards. */
  lemma AfterFormat(view: Fields, patch: Fields, voice: string, nvidiaKeys: set<string>, side: string, rest: Path)
    requires side in LIVE_AUDIO_KEYS && OlderKey(side) in patch
    ensures Get(Obj(Applied(view, patch, voice, nvidiaKeys)), ["audio", side, "format"] + rest)
         == Get(Over(SideField(Obj(view), side, "format"), patch[OlderKey(side)]), rest)
  {
    hide Effective, Merge, Applied, SideField;
    var at, e := ["audio", side, "format"], Effective(patch, voice);
    EffectiveReads(patch, voice);
    SideFieldGet(Obj(e), side, "format");
    SideFieldGet(Obj(view), side, "format");
    MergeReads(Obj(view), Obj(e), at);
    GetAppend(Merge(Obj(view), Obj(e)), at, rest);
    assert (at + rest)[..3] == at && at[2] == "format" && OUTPUT_VOICE[2] == "voice";
    AfterElsewhere(view, patch, voice, nvidiaKeys, at + rest);
  }

  lemma SidePaths(side: string, key: string, rest: Path)
    ensures var path := ["audio", side, key] + rest;
            && Place(path) == path && path != [] && path[0] == "audio" && !(TURN_DETECTION <= path)
            && (INPUT_TURN_DETECTION <= path <==> side == "input" && key == "turn_detection")
            && (path in {VOICE, OUTPUT_VOICE} ==> key == "voice")
  {
    var path := ["audio", side, key] + rest;
    assert path[0] == "audio" && path[1] == side && path[2] == key;
    assert path[..3] == ["audio", side, key];
    assert path == OUTPUT_VOICE ==> path[2] == "voice";
    assert INPUT_TURN_DETECTION <= path ==> path[1] == "input" && path[2] == "turn_detection";
  }

  lemma InForceFormat(
    view: Fields, patch: Fields, catalog: string -> string, nvidiaKeys: set<string>, side: string, rest: Path, v: Json)
    requires side in LIVE_AUDIO_KEYS && SideField(Obj(patch), side, "format") == Some(v)
    requires LeafOf(patch, ["audio", side, "format"] + rest) && FormatsAgree(view, patch, OlderKey(side), side)
    ensures InForce(view, patch, catalog, nvidiaKeys, ["audio", side, "format"] + rest)
  {
    hide Applied, FoundVoice, Effective, TurnDetection, SideField, Covers;
    var at, found := ["audio", side, "format"], FoundVoice(patch, catalog);
    SidePaths(side, "format", rest);
    SideFieldGet(Obj(patch), side, "format");
    GetAppend(Obj(patch), at, rest);
    if OlderKey(side) in patch {
      AfterFormat(view, patch, found, nvidiaKeys, side, rest);
      LeafOver(SideField(Obj(view), side, "format"), patch[OlderKey(side)], rest, Get(v, rest).value);
    } else {
      EffectiveReads(patch, found);
      SideFieldGet(Obj(Effective(patch, found)), side, "format");
      EffectiveInForce(view, patch, found, nvidiaKeys, at, rest, v);
    }
  }

  /** A nested format that an older one leaves out of force has a value that is dropped. */
  lemma DroppedFormat(view: Fields, patch: Fields, catalog: string -> string, nvidiaKeys: set<string>, side: string)
    returns (path: Path)
    requires side in LIVE_AUDIO_KEYS && !FormatsAgree(view, patch, OlderKey(side), side)
    ensures LeafOf(patch, path) && !InForce(view, patch, catalog, nvidiaKeys, path)
  {
    hide Applied, FoundVoice, Effective, TurnDetection, SideField, Covers;
    var at, v := ["audio", side, "format"], SideField(Obj(patch), side, "format").value;
    var now, older := SideField(Obj(view), side, "format"), patch[OlderKey(side)];
    var rest :| IsLeaf(v, rest) && !LeavesLeaf(now, older, rest, Get(v, rest).value);
    LeafOver(now, older, rest, Get(v, rest).value);
    path := at + rest;
    SidePaths(side, "format", rest);
    SideFieldGet(Obj(patch), side, "format");
    GetAppend(Obj(patch), at, rest);
    AfterFormat(view, patch, FoundVoice(patch, catalog), nvidiaKeys, side, rest);
  }

  lemma InForceTranscription(
    view: Fields, patch: Fields, catalog: string -> string, nvidiaKeys: set<string>, rest: Path)
    requires LeafOf(patch, ["audio", "input", "transcription"] + rest)
    ensures InForce(view, patch, catalog, nvidiaKeys, ["audio", "input", "transcription"] + rest)
  {
    hide Applied, FoundVoice, Effective, TurnDetection, SideField;
    var at, found := ["audio", "input", "transcription"], FoundVoice(patch, catalog);
    SidePaths("input", "transcription", rest);
    SideFieldGet(Obj(patch), "input", "transcription");
    GetAppend(Obj(patch), at, rest);
    EffectiveReads(patch, found);
    SideFieldGet(Obj(Effective(patch, found)), "input", "transcription");
    EffectiveInForce(view, patch, found, nvidiaKeys, at, rest, SideField(Obj(patch), "input", "transcription").value);
  }

  lemma InForceInputTurn(view: Fields, patch: Fields, catalog: string -> string, nvidiaKeys: set<string>, rest: Path)
    requires UnsupportedAudio(AudioOf(patch), TurnDetection(Obj(view))) == {}
    requires LeafOf(patch, INPUT_TURN_DETECTION + rest)
    ensures InForce(view, patch, catalog, nvidiaKeys, INPUT_TURN_DETECTION + rest)
  {
    hide Applied, FoundVoice, TurnDetection;
    SidePaths("input", "turn_detection", rest);
    SideFieldGet(Obj(patch), "input", "turn_detection");
    GetAppend(Obj(patch), INPUT_TURN_DETECTION, rest);
    LiveUpdateLeavesAlone(view, patch, FoundVoice(patch, catalog), nvidiaKeys);
    var v := SideField(Obj(patch), "input", "turn_detection").value;
    assert v != TurnDetection(Obj(view)) ==>
      "audio.input.turn_detection" in UnsupportedAudio(AudioOf(patch), TurnDetection(Obj(view)));
    assert (INPUT_TURN_DETECTION + rest)[3..] == rest;
  }

  /** Which fields of which sides an accepted update can name. */
  lemma SideKeys(patch: Fields, turn: Json, side: string, key: string)
    requires UnsupportedAudio(AudioOf(patch), turn) == {} && SideField(Obj(patch), side, key).Some?
    ensures side in LIVE_AUDIO_KEYS && key in (if side == "input" then LIVE_INPUT_KEYS else LIVE_OUTPUT_KEYS)
  {
    var bad := UnsupportedAudio(AudioOf(patch), turn);
    assert side in AudioOf(patch);
    assert side !in LIVE_AUDIO_KEYS ==> "audio." + side in bad;
    assert side == "input" && key !in LIVE_INPUT_KEYS ==> "audio.input." + key in bad;
    assert side == "output" && key !in LIVE_OUTPUT_KEYS ==> "audio.output." + key in bad;
  }

  lemma InForceSide(view: Fields, patch: Fields, catalog: string -> string, nvidiaKeys: set<string>, path: Path)
    requires UnsupportedAudio(AudioOf(patch), TurnDetection(Obj(view))) == {}
    requires LeafOf(patch, path) && |path| >= 3 && path[0] == "audio"
    requires FormatsAgree(view, patch, OlderKey("input"), "input")
    requires FormatsAgree(view, patch, OlderKey("output"), "output")
    requires VoicesAgree(patch, catalog)
    ensures InForce(view, patch, catalog, nvidiaKeys, path)
  {
    hide InForce, TurnDetection, FormatsAgree, VoiceGranted, SideField, FoundVoice;
    var side, key, rest := path[1], path[2], path[3..];
    assert path == ["audio", side, key] + rest;
    GetAppend(Obj(patch), ["audio", side, key], rest);
    SideFieldGet(Obj(patch), side, key);
    var v := SideField(Obj(patch), side, key).value;
    SideKeys(patch, TurnDetection(Obj(view)), side, key);
    if key == "format" {
      InForceFormat(view, patch, catalog, nvidiaKeys, side, rest, v);
    } else if key == "voice" {
      InForceVoice(view, patch, catalog, nvidiaKeys, OUTPUT_VOICE, rest, v);
    } else if key == "transcription" {
      InForceTranscription(view, patch, catalog, nvidiaKeys, rest);
    } else {
      InForceInputTurn(view, patch, catalog, nvidiaKeys, rest);
    }
  }

  // ----- The result -----

  /** The three ways in which an accepted update can lose something. */
  ghost predicate Loses(view: Fields, patch: Fields, catalog: string -> string) {
    || ErasesAudio(view, patch, catalog)
    || !FormatsAgree(view, patch, OlderKey("input"), "input")
    || !FormatsAgree(view, patch, OlderKey("output"), "output")
    || !VoicesAgree(patch, catalog)
  }

  lemma AcceptedAudio(patch: Fields, view: Fields, nvidiaKeys: set<string>)
    requires Unsupported(patch, view, nvidiaKeys) == {}
    ensures UnsupportedAudio(AudioOf(patch), TurnDetection(Obj(view))) == {}
  {
  }

  lemma EverythingInForce(view: Fields, patch: Fields, catalog: string -> string, nvidiaKeys: set<string>, path: Path)
    requires Unsupported(patch, view, nvidiaKeys) == {} && LeafOf(patch, path) && !Loses(view, patch, catalog)
    ensures InForce(view, patch, catalog, nvidiaKeys, path)
  {
    hide InForce, Unsupported, FormatsAgree, VoiceGranted, TurnDetection, FoundVoice, ErasesBlock;
    LeafBelow(patch, path);
    assert path[..1] == [path[0]];
    if path[0] == "turn_detection" {
      InForceTurn(view, patch, catalog, nvidiaKeys, path);
    } else if path[0] == "nvidia" {
      InForceNvidia(view, patch, catalog, nvidiaKeys, path);
    } else if path[0] == "voice" {
      FieldGet(Obj(patch), "voice");
      InForceVoice(view, patch, catalog, nvidiaKeys, VOICE, path[1..], patch["voice"]);
    } else if path[0] != "audio" {
      InForceTop(view, patch, catalog, nvidiaKeys, path);
    } else {
      AcceptedAudio(patch, view, nvidiaKeys);
      if |path| >= 3 {
        InForceSide(view, patch, catalog, nvidiaKeys, path);
      } else {
        BlockPath(patch, view, path);
        InForceBlock(view, patch, catalog, nvidiaKeys, path);
      }
    }
  }

  lemma BlockPath(patch: Fields, view: Fields, path: Path)
    requires UnsupportedAudio(AudioOf(patch), TurnDetection(Obj(view))) == {}
    requires LeafOf(patch, path) && 0 < |path| < 3 && path[0] == "audio"
    ensures path == ["audio"] || (|path| == 2 && path == ["audio", path[1]] && path[1] in LIVE_AUDIO_KEYS)
  {
    if |path| == 2 {
      assert path == ["audio", path[1]];
      GetTwo(Obj(patch), "audio", path[1]);
      OnlyTwoSides(patch, path[1], TurnDetection(Obj(view)));
    }
  }

  lemma OnlyTwoSides(patch: Fields, side: string, turn: Json)
    requires UnsupportedAudio(AudioOf(patch), turn) == {}
    ensures side in LIVE_AUDIO_KEYS || side !in AudioOf(patch)
  {
    assert side in AudioOf(patch) && side !in LIVE_AUDIO_KEYS ==>
      "audio." + side in UnsupportedAudio(AudioOf(patch), turn);
  }

  lemma SomethingDropped(view: Fields, patch: Fields, catalog: string -> string, nvidiaKeys: set<string>)
    returns (path: Path)
    requires Loses(view, patch, catalog)
    ensures LeafOf(patch, path) && !InForce(view, patch, catalog, nvidiaKeys, path)
  {
    hide InForce, FormatsAgree, VoiceGranted, FoundVoice, SideField;
    if ErasesAudio(view, patch, catalog) {
      var filled := "input_audio_format" in patch || "output_audio_format" in patch || FoundVoice(patch, catalog) != "";
      path := if ErasesBlock(view, patch, ["audio"], filled) then ["audio"]
        else if ErasesBlock(view, patch, ["audio", "input"], "input_audio_format" in patch) then ["audio", "input"]
        else ["audio", "output"];
      InForceBlock(view, patch, catalog, nvidiaKeys, path);
    } else if !FormatsAgree(view, patch, OlderKey("input"), "input") {
      path := DroppedFormat(view, patch, catalog, nvidiaKeys, "input");
    } else if !FormatsAgree(view, patch, OlderKey("output"), "output") {
      path := DroppedFormat(view, patch, catalog, nvidiaKeys, "output");
    } else {
      FieldGet(Obj(patch), "voice");
      SideFieldGet(Obj(patch), "output", "voice");
      var found := FoundVoice(patch, catalog);
      var top, nested := Field(Obj(patch), "voice"), SideField(Obj(patch), "output", "voice");
      if !VoiceGranted(top, catalog, found) {
        GrantedWhenAbsent(top, catalog, found);
        path := DroppedVoice(view, patch, catalog, nvidiaKeys, VOICE, top.value);
      } else {
        GrantedWhenAbsent(nested, catalog, found);
        path := DroppedVoice(view, patch, catalog, nvidiaKeys, OUTPUT_VOICE, nested.value);
      }
    }
  }

  lemma GrantedWhenAbsent(v: Option<Json>, catalog: string -> string, found: string)
    ensures v.None? ==> VoiceGranted(v, catalog, found)
  {
  }

  /** Of an update without unsupported fields everything asked for is in force afterwards, exactly if the update
      erases no audio block, asks for no two formats of one side that differ, and for no two voices that do. */
  lemma {:induction false} NothingDroppedExactly(
    view: Fields, patch: Fields, catalog: string -> string, nvidiaKeys: set<string>)
    requires Permitted(view, patch, nvidiaKeys)
    ensures (forall path | LeafOf(patch, path) :: InForce(view, patch, catalog, nvidiaKeys, path)) <==>
      !Loses(view, patch, catalog)
  {
    hide InForce, Unsupported, Loses, Permitted;
    PermittedExactly(view, patch, nvidiaKeys);
    if Loses(view, patch, catalog) {
      var path := SomethingDropped(view, patch, catalog, nvidiaKeys);
    } else {
      forall path | LeafOf(patch, path) ensures InForce(view, patch, catalog, nvidiaKeys, path) {
        EverythingInForce(view, patch, catalog, nvidiaKeys, path);
      }
    }
  }

  // ----- Each loss happens -----

  /** The checks of an update. */
  predicate Accepted(view: Fields, patch: Fields, nvidiaKeys: set<string>) {
    && ValidAudioConfig(Obj(patch)) && ValidTranscription(Obj(patch)) && ValidServerVad(Obj(patch))
    && Unsupported(patch, view, nvidiaKeys) == {}
  }

  /** An update passes all checks exactly if it is well-formed and asks for nothing that cannot change. */
  lemma {:induction false} AcceptedExactly(view: Fields, patch: Fields, nvidiaKeys: set<string>)
    ensures Accepted(view, patch, nvidiaKeys) <==> WellFormed(Obj(patch)) && Permitted(view, patch, nvidiaKeys)
  {
    hide WellFormed, Permitted, Unsupported, ValidAudioConfig, ValidTranscription, ValidServerVad;
    WellFormedExactly(Obj(patch));
    PermittedExactly(view, patch, nvidiaKeys);
  }

  /** A null audio block passes every check and is not applied. */
  lemma ErasingIsDropped(view: Fields, catalog: string -> string, nvidiaKeys: set<string>)
    requires "audio" in view && view["audio"].Obj?
    ensures var patch: Fields := map["audio" := Null];
            && Accepted(view, patch, nvidiaKeys) && LeafOf(patch, ["audio"])
            && Get(Obj(Applied(view, patch, FoundVoice(patch, catalog), nvidiaKeys)), ["audio"]) != Some(Null)
            && !InForce(view, patch, catalog, nvidiaKeys, ["audio"])
  {
    hide Applied;
    var patch: Fields := map["audio" := Null];
    FieldGet(Obj(patch), "audio");
    FieldGet(Obj(view), "audio");
    NothingElseAsked(patch);
    InForceBlock(view, patch, catalog, nvidiaKeys, ["audio"]);
  }

  function PcmFormat(rate: int): Json {
    Obj(map["type" := Str("audio/pcm"), "rate" := Int(rate)])
  }

  function TwoFormats(older: int, nested: int): Fields {
    map["input_audio_format" := PcmFormat(older),
        "audio" := Obj(map["input" := Obj(map["format" := PcmFormat(nested)])])]
  }

  /** Of two different formats for one side the nested one is dropped. */
  lemma OverriddenFormatIsDropped(
    view: Fields, catalog: string -> string, nvidiaKeys: set<string>, older: int, nested: int)
    requires older in PCM_RATES && nested in PCM_RATES && older != nested
    ensures var patch := TwoFormats(older, nested); var path := ["audio", "input", "format"] + ["rate"];
            && Accepted(view, patch, nvidiaKeys) && LeafOf(patch, path)
            && Get(Obj(Applied(view, patch, FoundVoice(patch, catalog), nvidiaKeys)), path) == Some(Int(older))
            && !InForce(view, patch, catalog, nvidiaKeys, path)
  {
    hide Applied, FoundVoice;
    var patch := TwoFormats(older, nested);
    TwoFormatsAccepted(view, nvidiaKeys, older, nested);
    SideFieldGet(Obj(patch), "input", "format");
    GetAppend(Obj(patch), ["audio", "input", "format"], ["rate"]);
    FieldGet(PcmFormat(nested), "rate");
    AfterFormat(view, patch, FoundVoice(patch, catalog), nvidiaKeys, "input", ["rate"]);
    RateOver(SideField(Obj(view), "input", "format"), older);
    SidePaths("input", "format", ["rate"]);
  }

  lemma RateOver(base: Option<Json>, rate: int)
    ensures Get(Over(base, PcmFormat(rate)), ["rate"]) == Some(Int(rate))
  {
    FieldGet(PcmFormat(rate), "rate");
    if base.Some? {
      MergeReads(base.value, PcmFormat(rate), ["rate"]);
    }
  }

  lemma TwoFormatsAccepted(view: Fields, nvidiaKeys: set<string>, older: int, nested: int)
    requires older in PCM_RATES && nested in PCM_RATES
    ensures Accepted(view, TwoFormats(older, nested), nvidiaKeys)
  {
    hide ValidAudioConfig, ValidTranscription, ValidServerVad, Unsupported, Get;
    var patch := TwoFormats(older, nested);
    assert Side(Obj(patch), "input") == map["format" := PcmFormat(nested)] && Side(Obj(patch), "output") == map[];
    TwoFormatsValid(older, nested);
    NothingElseAsked(patch);
    NothingUnsupported(patch, view, nvidiaKeys);
  }

  lemma TwoFormatsValid(older: int, nested: int)
    requires older in PCM_RATES && nested in PCM_RATES
    ensures ValidAudioConfig(Obj(TwoFormats(older, nested)))
  {
    assert ValidFormat(PcmFormat(older)) && ValidFormat(PcmFormat(nested));
    hide ValidFormat;
  }

  /** An update that names neither turn detection nor transcription passes those two checks. */
  lemma NothingElseAsked(patch: Fields)
    requires "turn_detection" !in patch && "input_audio_transcription" !in patch
    requires "turn_detection" !in Side(Obj(patch), "input") && "transcription" !in Side(Obj(patch), "input")
    ensures ValidTranscription(Obj(patch)) && ValidServerVad(Obj(patch))
  {
    hide Side;
    SideFieldGet(Obj(patch), "input", "turn_detection");
    SideFieldGet(Obj(patch), "input", "transcription");
    FieldGet(Obj(patch), "turn_detection");
    hide Get;
  }

  /** Only formats and voices at their places: nothing is unsupported. */
  lemma NothingUnsupported(patch: Fields, view: Fields, nvidiaKeys: set<string>)
    requires patch.Keys <= LIVE_KEYS - {"turn_detection"} && AudioOf(patch).Keys <= LIVE_AUDIO_KEYS
    requires Side(Obj(patch), "input").Keys <= {"format"} && Side(Obj(patch), "output").Keys <= LIVE_OUTPUT_KEYS
    ensures Unsupported(patch, view, nvidiaKeys) == {}
  {
    hide TurnDetection, UnsupportedNvidia;
  }

  function TwoVoices(top: string, nested: string): Fields {
    map["voice" := Str(top), "audio" := Obj(map["output" := Obj(map["voice" := Str(nested)])])]
  }

  /** Of two voices with different answers the top-level one is dropped. */
  lemma OverriddenVoiceIsDropped(
    view: Fields, catalog: string -> string, nvidiaKeys: set<string>, top: string, nested: string)
    requires Strip(top) != "" && Strip(nested) != "" && Answer(catalog, Strip(top)) != Answer(catalog, Strip(nested))
    ensures var patch := TwoVoices(top, nested);
            && Accepted(view, patch, nvidiaKeys) && LeafOf(patch, VOICE)
            && Get(Obj(Applied(view, patch, FoundVoice(patch, catalog), nvidiaKeys)), VOICE) ==
              Some(Str(Answer(catalog, Strip(nested))))
            && !InForce(view, patch, catalog, nvidiaKeys, VOICE)
  {
    hide Applied, Strip;
    var patch := TwoVoices(top, nested);
    TwoVoicesAccepted(view, nvidiaKeys, top, nested);
    SideFieldGet(Obj(patch), "output", "voice");
    FieldGet(Obj(patch), "voice");
    assert FoundVoice(patch, catalog) == Answer(catalog, Strip(nested));
    AfterVoice(view, patch, FoundVoice(patch, catalog), nvidiaKeys, VOICE, []);
    assert VOICE + [] == VOICE;
  }

  lemma TwoVoicesAccepted(view: Fields, nvidiaKeys: set<string>, top: string, nested: string)
    ensures Accepted(view, TwoVoices(top, nested), nvidiaKeys)
  {
    hide ValidTranscription, ValidServerVad, Unsupported, Get;
    var patch := TwoVoices(top, nested);
    assert Side(Obj(patch), "input") == map[] && Side(Obj(patch), "output") == map["voice" := Str(nested)];
    NothingElseAsked(patch);
    NothingUnsupported(patch, view, nvidiaKeys);
  }
}
