/**
 * The request and response record shapes of the client library.
 * String literal unions become subset types of `string`; optional properties become `Option`.
 */
module Types {
  import opened Wrappers

  /** A byte of a Node.js `Buffer`. */
  type Byte = bv8

  /**
   * An optional property of an object literal, as JavaScript's object spread sees it:
   * the key may be missing, present with the value `undefined`, or present with a value.
   */
  datatype Prop<+T> = Missing | Undefined | Defined(value: T)

  /** Client configuration; every property is optional, so a credential-less value is admitted. */
  datatype SentiraConfig = SentiraConfig(apiKey: Prop<string>, accessToken: Prop<string>, baseUrl: Prop<string>)

  datatype ApiKeyRequest = ApiKeyRequest(name: string, scopes: seq<string>)

  datatype ApiKey = ApiKey(id: string, name: string, key: string, scopes: seq<string>, createdAt: string, userId: string)

  datatype ApiKeyResponse = ApiKeyResponse(result: string, apiKey: ApiKey)

  /** The key list may be empty. */
  datatype GetApiKeysResponse = GetApiKeysResponse(result: string, apiKeys: seq<ApiKey>)

  datatype DeleteApiKeyResponse = DeleteApiKeyResponse(result: string)

  datatype ValidateApiKeyRequest = ValidateApiKeyRequest(apiKey: string)

  datatype ValidateApiKeyResponse = ValidateApiKeyResponse(result: string, valid: bool)

  predicate IsSummaryLength(s: string) { s == "short" || s == "medium" || s == "long" }
  type SummaryLength = s: string | IsSummaryLength(s) witness "short"

  predicate IsSummaryFormat(s: string) { s == "bullets" || s == "paragraph" }
  type SummaryFormat = s: string | IsSummaryFormat(s) witness "bullets"

  predicate IsSummaryModel(s: string) { s == "anthropic" || s == "google" }
  type SummaryModel = s: string | IsSummaryModel(s) witness "anthropic"

  predicate IsInputType(s: string) { s == "file" || s == "url" }
  type InputType = s: string | IsInputType(s) witness "file"

  /** The transcript type admits one value only. */
  predicate IsTranscriptType(s: string) { s == "text" }
  type TranscriptType = s: string | IsTranscriptType(s) witness "text"

  predicate IsTranscribeModel(s: string) { s == "nova-2" || s == "whisper-large" }
  type TranscribeModel = s: string | IsTranscribeModel(s) witness "nova-2"

  datatype SummarizeOptions = SummarizeOptions(
    text: Option<string>,
    file: Option<seq<Byte>>,
    summaryLength: SummaryLength,
    summaryFormat: SummaryFormat,
    model: SummaryModel,
    additionalCommand: Option<string>,
    stream: Option<bool>)

  datatype TranscribeOptions = TranscribeOptions(
    file: Option<seq<Byte>>,
    inputType: InputType,
    transcriptType: TranscriptType,
    audioUrl: Option<string>,
    useSubtitles: Option<bool>,
    model: TranscribeModel)

  datatype Summary = Summary(summary: string)

  datatype SummarizeResponse = SummarizeResponse(result: string, creditsUsed: real, tokensProcessed: real, response: Summary)

  /** An opaque JSON value, kept only so that the nested `response` record has a type. */
  datatype Json = JNull | JBool(b: bool) | JNumber(n: real) | JString(s: string) | JArray(items: seq<Json>) | JObject(fields: map<string, Json>)

  datatype Transcript = Transcript(transcript: string, response: map<string, Json>)

  /** `error` is the only optional field of any response. */
  datatype TranscribeResponse = TranscribeResponse(
    result: string,
    response: Transcript,
    creditsUsed: real,
    audioDuration: real,
    model: string,
    error: Option<string>)

  /** The value of one option entry as the form loop sees it. */
  datatype Value = Bytes(bytes: seq<Byte>) | Str(s: string) | Bool(b: bool)

  /** One `[key, value]` pair of `Object.entries(options)`. */
  type Entry = (string, Value)

  /** The keys of the entries are pairwise distinct. */
  predicate DistinctKeys(es: seq<Entry>)
  {
    forall i, j :: 0 <= i < j < |es| ==> es[i].0 != es[j].0
  }

  /** The entries hold an entry under `key` exactly when `v` is given, and then its value is `v`. */
  predicate Carries(es: seq<Entry>, key: string, v: Option<Value>)
  {
    && (v.Some? ==> (key, v.value) in es)
    && forall i :: 0 <= i < |es| && es[i].0 == key ==> v == Some(es[i].1)
  }

  function StrOf(s: Option<string>): Option<Value> { if s.Some? then Some(Str(s.value)) else None }
  function BytesOf(b: Option<seq<Byte>>): Option<Value> { if b.Some? then Some(Bytes(b.value)) else None }
  function BoolOf(b: Option<bool>): Option<Value> { if b.Some? then Some(Bool(b.value)) else None }

  const SummarizeKeys: set<string> :=
    {"text", "file", "summary_length", "summary_format", "model", "additional_command", "stream"}
  const TranscribeKeys: set<string> :=
    {"file", "input_type", "transcript_type", "audio_url", "use_subtitles", "model"}

  /** A declared option: its key, and its value when the property is present. */
  type Field = (string, Option<Value>)

  /** The declared fields' keys are pairwise distinct. */
  predicate DistinctFieldKeys(fs: seq<Field>)
  {
    forall i, j :: 0 <= i < j < |fs| ==> fs[i].0 != fs[j].0
  }

  /** The entry of one field: none when the property is absent. */
  function EntryOf(f: Field): seq<Entry>
  {
    if f.1.Some? then [(f.0, f.1.value)] else []
  }

  /** The entries of an object that has the given fields: the present ones, in order. */
  function FromFields(fs: seq<Field>): seq<Entry>
  {
    if fs == [] then [] else EntryOf(fs[0]) + FromFields(fs[1..])
  }

  lemma DistinctTail(fs: seq<Field>)
    requires fs != [] && DistinctFieldKeys(fs)
    ensures DistinctFieldKeys(fs[1..])
    ensures forall k :: 0 <= k < |fs| - 1 ==> fs[1..][k].0 != fs[0].0
  {
    var tail := fs[1..];
    forall i, j | 0 <= i < j < |tail| ensures tail[i].0 != tail[j].0 {
      assert tail[i] == fs[i + 1] && tail[j] == fs[j + 1];
    }
  }

  /** Each entry comes from a present field. */
  lemma {:induction false} FromFieldsOrigin(fs: seq<Field>)
    ensures forall i :: 0 <= i < |FromFields(fs)| ==> (FromFields(fs)[i].0, Some(FromFields(fs)[i].1)) in fs
  {
    if fs != [] {
      FromFieldsOrigin(fs[1..]);
      var head, rest := EntryOf(fs[0]), FromFields(fs[1..]);
      var r := head + rest;
      forall i | 0 <= i < |r| ensures (r[i].0, Some(r[i].1)) in fs {
        if i >= |head| {
          assert r[i] == rest[i - |head|];
          assert (r[i].0, Some(r[i].1)) in fs[1..];
        }
      }
    }
  }

  /** Fields with distinct keys give entries with distinct keys. */
  lemma {:induction false} FromFieldsDistinct(fs: seq<Field>)
    requires DistinctFieldKeys(fs)
    ensures DistinctKeys(FromFields(fs))
  {
    if fs != [] {
      DistinctTail(fs);
      FromFieldsDistinct(fs[1..]);
      FromFieldsOrigin(fs[1..]);
      var head, rest := EntryOf(fs[0]), FromFields(fs[1..]);
      var r := head + rest;
      forall i | 0 <= i < |rest| ensures rest[i].0 != fs[0].0 {
        var k :| 0 <= k < |fs[1..]| && fs[1..][k] == (rest[i].0, Some(rest[i].1));
      }
      forall i, j | 0 <= i < j < |r| ensures r[i].0 != r[j].0 {
        assert r[j] == rest[j - |head|];
        if i >= |head| { assert r[i] == rest[i - |head|]; }
      }
    }
  }

  /** A field whose key no other field shares is carried under that key. */
  lemma {:induction false} FromFieldsCarries(fs: seq<Field>, j: nat)
    requires DistinctFieldKeys(fs) && j < |fs|
    ensures Carries(FromFields(fs), fs[j].0, fs[j].1)
  {
    DistinctTail(fs);
    var head, rest := EntryOf(fs[0]), FromFields(fs[1..]);
    var r := head + rest;
    if j == 0 {
      FromFieldsOrigin(fs[1..]);
      forall i | 0 <= i < |rest| ensures rest[i].0 != fs[0].0 {
        var k :| 0 <= k < |fs[1..]| && fs[1..][k] == (rest[i].0, Some(rest[i].1));
      }
      if fs[0].1.Some? { assert r[0] == (fs[0].0, fs[0].1.value); }
      assert forall i :: 0 <= i < |rest| ==> r[|head| + i] == rest[i];
    } else {
      FromFieldsCarries(fs[1..], j - 1);
      assert fs[j] == fs[1..][j - 1];
      if fs[j].1.Some? {
        var k :| 0 <= k < |rest| && rest[k] == (fs[j].0, fs[j].1.value);
        assert r[k + |head|] == rest[k];
      }
      forall i | 0 <= i < |r| && r[i].0 == fs[j].0 ensures fs[j].1 == Some(r[i].1) {
        if i >= |head| { assert r[i] == rest[i - |head|]; }
      }
    }
  }

  /** The declared fields of a summarize options object, in declaration order. */
  function SummarizeFields(o: SummarizeOptions): seq<Field>
  {
    [("text", StrOf(o.text)),
     ("file", BytesOf(o.file)),
     ("summary_length", Some(Str(o.summaryLength))),
     ("summary_format", Some(Str(o.summaryFormat))),
     ("model", Some(Str(o.model))),
     ("additional_command", StrOf(o.additionalCommand)),
     ("stream", BoolOf(o.stream))]
  }

  /** The declared fields of a transcribe options object, in declaration order. */
  function TranscribeFields(o: TranscribeOptions): seq<Field>
  {
    [("file", BytesOf(o.file)),
     ("input_type", Some(Str(o.inputType))),
     ("transcript_type", Some(Str(o.transcriptType))),
     ("audio_url", StrOf(o.audioUrl)),
     ("use_subtitles", BoolOf(o.useSubtitles)),
     ("model", Some(Str(o.model)))]
  }

  /** How many of the fields are present. */
  function PresentCount(fs: seq<Field>): nat
  {
    if fs == [] then 0 else (if fs[0].1.Some? then 1 else 0) + PresentCount(fs[1..])
  }

  /** Unfolds `PresentCount` once, at position `k`. */
  lemma PresentCountStep(fs: seq<Field>, k: nat)
    requires k < |fs|
    ensures PresentCount(fs[k..]) == (if fs[k].1.Some? then 1 else 0) + PresentCount(fs[k + 1..])
  {
    assert fs[k..][0] == fs[k];
    assert fs[k..][1..] == fs[k + 1..];
  }

  /** One entry per present field. */
  lemma {:induction false} FromFieldsLength(fs: seq<Field>)
    ensures |FromFields(fs)| == PresentCount(fs)
  {
    if fs != [] { FromFieldsLength(fs[1..]); }
  }

  /** A present field's entry follows the entries of the present fields before it. */
  lemma {:induction false} FromFieldsIndex(fs: seq<Field>, j: nat)
    requires j < |fs| && fs[j].1.Some?
    ensures PresentCount(fs[..j]) < |FromFields(fs)|
    ensures FromFields(fs)[PresentCount(fs[..j])] == (fs[j].0, fs[j].1.value)
  {
    var head, rest := EntryOf(fs[0]), FromFields(fs[1..]);
    if j == 0 {
      assert fs[..0] == [];
    } else {
      FromFieldsIndex(fs[1..], j - 1);
      assert fs[..j][0] == fs[0];
      assert fs[..j][1..] == fs[1..][..j - 1];
      assert fs[1..][j - 1] == fs[j];
      var k := PresentCount(fs[1..][..j - 1]);
      assert (head + rest)[|head| + k] == rest[k];
    }
  }

  /** Three summarize options always have a value; the other four may be absent. */
  lemma SummarizePresentCount(o: SummarizeOptions)
    ensures PresentCount(SummarizeFields(o))
         == 3 + (if o.text.Some? then 1 else 0) + (if o.file.Some? then 1 else 0)
              + (if o.additionalCommand.Some? then 1 else 0) + (if o.stream.Some? then 1 else 0)
  {
    var fs := SummarizeFields(o);
    var stream, command := if o.stream.Some? then 1 else 0, if o.additionalCommand.Some? then 1 else 0;
    assert fs[7..] == [];
    PresentCountStep(fs, 6);
    assert PresentCount(fs[6..]) == stream;
    PresentCountStep(fs, 5);
    assert PresentCount(fs[5..]) == command + stream;
    PresentCountStep(fs, 4); PresentCountStep(fs, 3); PresentCountStep(fs, 2);
    assert PresentCount(fs[2..]) == 3 + command + stream;
    PresentCountStep(fs, 1); PresentCountStep(fs, 0);
    assert fs[0..] == fs;
  }

  /** Three transcribe options always have a value; the other three may be absent. */
  lemma TranscribePresentCount(o: TranscribeOptions)
    ensures PresentCount(TranscribeFields(o))
         == 3 + (if o.file.Some? then 1 else 0) + (if o.audioUrl.Some? then 1 else 0)
              + (if o.useSubtitles.Some? then 1 else 0)
  {
    var fs := TranscribeFields(o);
    var subtitles, url := if o.useSubtitles.Some? then 1 else 0, if o.audioUrl.Some? then 1 else 0;
    assert fs[6..] == [];
    PresentCountStep(fs, 5); PresentCountStep(fs, 4);
    assert PresentCount(fs[4..]) == subtitles + 1;
    PresentCountStep(fs, 3);
    assert PresentCount(fs[3..]) == url + subtitles + 1;
    PresentCountStep(fs, 2); PresentCountStep(fs, 1); PresentCountStep(fs, 0);
    assert fs[0..] == fs;
  }

  /** How many entries the summarize options give, and which of them holds the file. */
  lemma SummarizeEntriesShape(o: SummarizeOptions)
    ensures var es := FromFields(SummarizeFields(o));
      && |es| == 3 + (if o.text.Some? then 1 else 0) + (if o.file.Some? then 1 else 0)
                   + (if o.additionalCommand.Some? then 1 else 0) + (if o.stream.Some? then 1 else 0)
      && (forall i :: 0 <= i < |es| ==> (es[i].1.Bytes? <==> es[i].0 == "file"))
      && (forall i :: 0 <= i < |es| && es[i].0 == "file" ==> o.file == Some(es[i].1.bytes))
      && (o.file.Some? ==> es[if o.text.Some? then 1 else 0] == ("file", Bytes(o.file.value)))
  {
    var fs := SummarizeFields(o);
    var es := FromFields(fs);
    FromFieldsLength(fs);
    SummarizePresentCount(o);
    FromFieldsOrigin(fs);
    if o.file.Some? {
      FromFieldsIndex(fs, 1);
      assert fs[..1] == [fs[0]];
    }
    forall i | 0 <= i < |es| ensures es[i].1.Bytes? <==> es[i].0 == "file" {
      assert (es[i].0, Some(es[i].1)) in fs;
    }
  }

  /** Each summarize option appears under its own key with its own value, and under no other key. */
  lemma SummarizeEntriesContents(o: SummarizeOptions)
    ensures var es := FromFields(SummarizeFields(o));
      && DistinctKeys(es)
      && (forall i :: 0 <= i < |es| ==> es[i].0 in SummarizeKeys)
      && Carries(es, "text", StrOf(o.text))
      && Carries(es, "file", BytesOf(o.file))
      && Carries(es, "summary_length", Some(Str(o.summaryLength)))
      && Carries(es, "summary_format", Some(Str(o.summaryFormat)))
      && Carries(es, "model", Some(Str(o.model)))
      && Carries(es, "additional_command", StrOf(o.additionalCommand))
      && Carries(es, "stream", BoolOf(o.stream))
  {
    var fs := SummarizeFields(o);
    FromFieldsDistinct(fs);
    FromFieldsOrigin(fs);
    FromFieldsCarries(fs, 0); FromFieldsCarries(fs, 1); FromFieldsCarries(fs, 2); FromFieldsCarries(fs, 3);
    FromFieldsCarries(fs, 4); FromFieldsCarries(fs, 5); FromFieldsCarries(fs, 6);
  }

  /** The entries of a summarize options object: one per present property, under its own key, with its own value. */
  function SummarizeEntries(o: SummarizeOptions): (es: seq<Entry>)
    ensures |es| == 3 + (if o.text.Some? then 1 else 0) + (if o.file.Some? then 1 else 0)
                      + (if o.additionalCommand.Some? then 1 else 0) + (if o.stream.Some? then 1 else 0)
    ensures forall i :: 0 <= i < |es| ==> (es[i].1.Bytes? <==> es[i].0 == "file")
    ensures forall i :: 0 <= i < |es| && es[i].0 == "file" ==> o.file == Some(es[i].1.bytes)
    ensures o.file.Some? ==> es[if o.text.Some? then 1 else 0] == ("file", Bytes(o.file.value))
    ensures DistinctKeys(es)
    ensures forall i :: 0 <= i < |es| ==> es[i].0 in SummarizeKeys
    ensures Carries(es, "text", StrOf(o.text))
    ensures Carries(es, "file", BytesOf(o.file))
    ensures Carries(es, "summary_length", Some(Str(o.summaryLength)))
    ensures Carries(es, "summary_format", Some(Str(o.summaryFormat)))
    ensures Carries(es, "model", Some(Str(o.model)))
    ensures Carries(es, "additional_command", StrOf(o.additionalCommand))
    ensures Carries(es, "stream", BoolOf(o.stream))
  {
    SummarizeEntriesShape(o);
    SummarizeEntriesContents(o);
    FromFields(SummarizeFields(o))
  }

  /** How many entries the transcribe options give, and which of them holds the file. */
  lemma TranscribeEntriesShape(o: TranscribeOptions)
    ensures var es := FromFields(TranscribeFields(o));
      && |es| == 3 + (if o.file.Some? then 1 else 0) + (if o.audioUrl.Some? then 1 else 0)
                   + (if o.useSubtitles.Some? then 1 else 0)
      && (forall i :: 0 <= i < |es| ==> (es[i].1.Bytes? <==> es[i].0 == "file"))
      && (forall i :: 0 <= i < |es| && es[i].0 == "file" ==> o.file == Some(es[i].1.bytes))
      && (o.file.Some? ==> es[0] == ("file", Bytes(o.file.value)))
  {
    var fs := TranscribeFields(o);
    var es := FromFields(fs);
    FromFieldsLength(fs);
    TranscribePresentCount(o);
    FromFieldsOrigin(fs);
    if o.file.Some? {
      FromFieldsIndex(fs, 0);
      assert fs[..0] == [];
    }
    forall i | 0 <= i < |es| ensures es[i].1.Bytes? <==> es[i].0 == "file" {
      assert (es[i].0, Some(es[i].1)) in fs;
    }
  }

  /** Each transcribe option appears under its own key with its own value, and under no other key. */
  lemma TranscribeEntriesContents(o: TranscribeOptions)
    ensures var es := FromFields(TranscribeFields(o));
      && DistinctKeys(es)
      && (forall i :: 0 <= i < |es| ==> es[i].0 in TranscribeKeys)
      && Carries(es, "file", BytesOf(o.file))
      && Carries(es, "input_type", Some(Str(o.inputType)))
      && Carries(es, "transcript_type", Some(Str(o.transcriptType)))
      && Carries(es, "audio_url", StrOf(o.audioUrl))
      && Carries(es, "use_subtitles", BoolOf(o.useSubtitles))
      && Carries(es, "model", Some(Str(o.model)))
  {
    var fs := TranscribeFields(o);
    FromFieldsDistinct(fs);
    FromFieldsOrigin(fs);
    FromFieldsCarries(fs, 0); FromFieldsCarries(fs, 1); FromFieldsCarries(fs, 2);
    FromFieldsCarries(fs, 3); FromFieldsCarries(fs, 4); FromFieldsCarries(fs, 5);
  }

  /** The entries of a transcribe options object: one per present property, under its own key, with its own value. */
  function TranscribeEntries(o: TranscribeOptions): (es: seq<Entry>)
    ensures |es| == 3 + (if o.file.Some? then 1 else 0) + (if o.audioUrl.Some? then 1 else 0)
                      + (if o.useSubtitles.Some? then 1 else 0)
    ensures forall i :: 0 <= i < |es| ==> (es[i].1.Bytes? <==> es[i].0 == "file")
    ensures forall i :: 0 <= i < |es| && es[i].0 == "file" ==> o.file == Some(es[i].1.bytes)
    ensures o.file.Some? ==> es[0] == ("file", Bytes(o.file.value))
    ensures DistinctKeys(es)
    ensures forall i :: 0 <= i < |es| ==> es[i].0 in TranscribeKeys
    ensures Carries(es, "file", BytesOf(o.file))
    ensures Carries(es, "input_type", Some(Str(o.inputType)))
    ensures Carries(es, "transcript_type", Some(Str(o.transcriptType)))
    ensures Carries(es, "audio_url", StrOf(o.audioUrl))
    ensures Carries(es, "use_subtitles", BoolOf(o.useSubtitles))
    ensures Carries(es, "model", Some(Str(o.model)))
  {
    TranscribeEntriesShape(o);
    TranscribeEntriesContents(o);
    FromFields(TranscribeFields(o))
  }
}
