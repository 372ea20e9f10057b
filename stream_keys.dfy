/** The stream format keys of psychopy/sound/backend_sounddevice.py: the
    label `getStreamLabel` builds, and the exact and wildcard searches that
    `_StreamsDict` performs over its table.

    A field is an integer or Python's None (a tone's channel count is None
    until a stream fixes it). In a `getSimilar` request the integer -1 is a
    wildcard. The source matches labels with a regular expression in which
    "-1" becomes `[-+]?(\d+)`; the model compares fields instead, assuming
    exact equality on every field that is not a wildcard (the expression is
    anchored only at the start, and a "-1" inside a longer number such as
    "-12" is also rewritten; neither effect is modelled). */
module StreamKeys {
  import opened Wrappers
  import opened Text

  /** One field of a stream format: an integer, or None. */
  type Field = Option<int>

  /** (sample rate, channel count, block size) */
  datatype StreamKey = StreamKey(sampleRate: Field, channels: Field, blockSize: Field)

  /** The field value that matches any integer in a `getSimilar` request. */
  const Wildcard: Field := Some(-1)

  /** `str(f)`: the digits of an integer, or "None". */
  function FieldText(f: Field): string {
    match f
    case None => "None"
    case Some(n) => IntToDecimal(n)
  }

  /** `getStreamLabel`: the three fields joined by '_'. */
  function StreamLabel(k: StreamKey): string {
    FieldText(k.sampleRate) + "_" + FieldText(k.channels) + "_" + FieldText(k.blockSize)
  }

  /** No field's text holds an '_', so a label splits back into exactly the
      three texts it was joined from. */
  lemma StreamLabelSplits(k: StreamKey)
    ensures Split(StreamLabel(k), '_') == [FieldText(k.sampleRate), FieldText(k.channels), FieldText(k.blockSize)]
  {
    FieldTextRoundTrip(k.sampleRate);
    FieldTextRoundTrip(k.channels);
    FieldTextRoundTrip(k.blockSize);
    JoinedSplits(FieldText(k.sampleRate), FieldText(k.channels), FieldText(k.blockSize));
  }

  /** Three texts without '_', joined by '_', split back into those texts. */
  lemma JoinedSplits(a: string, b: string, c: string)
    requires '_' !in a && '_' !in b && '_' !in c
    ensures Split(a + "_" + b + "_" + c, '_') == [a, b, c]
  {
    assert a + "_" + b + "_" + c == a + ['_'] + (b + ['_'] + c);
    SplitAtFirst(a, '_', b + ['_'] + c);
    SplitAtFirst(b, '_', c);
    SplitNoSeparator(c, '_');
  }

  function ParseField(p: string): Option<Field> {
    if p == "None" then Some(None)
    else if IsIntText(p) then Some(Some(ParseInt(p)))
    else None
  }

  /** Reads a label back into the fields it was built from. */
  function ParseStreamLabel(s: string): Option<StreamKey> {
    var parts := Split(s, '_');
    if |parts| != 3 then None
    else
      match (ParseField(parts[0]), ParseField(parts[1]), ParseField(parts[2]))
      case (Some(r), Some(c), Some(b)) => Some(StreamKey(r, c, b))
      case _ => None
  }

  lemma FieldTextRoundTrip(f: Field)
    ensures '_' !in FieldText(f)
    ensures ParseField(FieldText(f)) == Some(f)
  {
    if f.Some? {
      var s := IntToDecimal(f.value);
      IntRoundTrip(f.value);
      assert s != "None" by { assert s[0] != 'N'; }
      assert forall i :: 0 <= i < |s| ==> s[i] != '_' by {
        if s[0] == '-' { assert AllDigits(s[1..]); }
        forall i | 1 <= i < |s| ensures s[i] != '_' {
          if s[0] == '-' { assert s[i] == s[1..][i - 1]; }
        }
      }
    }
  }

  /** A label determines its key: reading it back gives the same fields. */
  lemma StreamLabelRoundTrip(k: StreamKey)
    ensures ParseStreamLabel(StreamLabel(k)) == Some(k)
  {
    StreamLabelSplits(k);
    FieldTextRoundTrip(k.sampleRate);
    FieldTextRoundTrip(k.channels);
    FieldTextRoundTrip(k.blockSize);
  }

  /** Two keys have the same label exactly when they are the same key, so a
      table keyed by labels behaves as one keyed by the fields. */
  lemma StreamLabelInjective(k1: StreamKey, k2: StreamKey)
    ensures StreamLabel(k1) == StreamLabel(k2) <==> k1 == k2
  {
    StreamLabelRoundTrip(k1);
    StreamLabelRoundTrip(k2);
  }

  /** One request field against one stored field: a wildcard matches any
      integer (but not None); any other value matches only itself. */
  predicate FieldMatches(request: Field, stored: Field) {
    if request == Wildcard then stored.Some? else request == stored
  }

  /** The `simil.match(thisFormat)` test of `getSimilar`: every key matches
      itself, and a different key matches only through a wildcard. */
  predicate KeyMatches(request: StreamKey, stored: StreamKey)
    ensures request == stored ==> KeyMatches(request, stored)
    ensures KeyMatches(request, stored) && request != stored ==>
      request.sampleRate == Wildcard || request.channels == Wildcard || request.blockSize == Wildcard
  {
    && FieldMatches(request.sampleRate, stored.sampleRate)
    && FieldMatches(request.channels, stored.channels)
    && FieldMatches(request.blockSize, stored.blockSize)
  }

  /** Every field is given, so `getSimilar` may create the stream: the rate is
      not None, -1 or 0, and the channels and block size are not None or -1. */
  predicate Concrete(request: StreamKey)
    ensures Concrete(request) ==> request.sampleRate.Some? && request.channels.Some? && request.blockSize.Some?
    ensures Concrete(request) ==> Wildcard !in [request.sampleRate, request.channels, request.blockSize]
  {
    && request.sampleRate !in {None, Wildcard, Some(0)}
    && request.channels !in {None, Wildcard}
    && request.blockSize !in {None, Wildcard}
  }

  /** With no wildcard in it, a request matches exactly the key equal to it. */
  lemma ConcreteMatchIsEquality(request: StreamKey, stored: StreamKey)
    requires Concrete(request)
    ensures KeyMatches(request, stored) <==> request == stored
  {
  }

  /** `label in self.keys()`: where the exact key sits in the table. */
  function IndexOfKey<S>(entries: seq<(StreamKey, S)>, k: StreamKey): (r: Option<nat>)
    ensures r.Some? ==> r.value < |entries| && entries[r.value].0 == k
    ensures r.Some? ==> forall j :: 0 <= j < r.value ==> entries[j].0 != k
    ensures r.None? ==> forall j :: 0 <= j < |entries| ==> entries[j].0 != k
    decreases |entries|
  {
    if entries == [] then None
    else if entries[0].0 == k then Some(0)
    else
      match IndexOfKey(entries[1..], k)
      case None => None
      case Some(i) => Some(i + 1)
  }

  /** A table lookup by label string, as the Python dictionary performs it. */
  function IndexOfLabel<S>(entries: seq<(StreamKey, S)>, name: string): Option<nat>
    decreases |entries|
  {
    if entries == [] then None
    else if StreamLabel(entries[0].0) == name then Some(0)
    else
      match IndexOfLabel(entries[1..], name)
      case None => None
      case Some(i) => Some(i + 1)
  }

  /** A name that exactly the entries with key `k` carry as their label
      finds the same entry as looking up `k`. */
  lemma {:induction false} IndexOfLabelByName<S>(entries: seq<(StreamKey, S)>, k: StreamKey, name: string)
    requires forall j :: 0 <= j < |entries| ==> (StreamLabel(entries[j].0) == name <==> entries[j].0 == k)
    ensures IndexOfLabel(entries, name) == IndexOfKey(entries, k)
    decreases |entries|
  {
    if entries != [] {
      IndexOfLabelByName(entries[1..], k, name);
    }
  }

  /** Looking a key up by its label finds the same entry as looking up the key. */
  lemma IndexOfLabelIsIndexOfKey<S>(entries: seq<(StreamKey, S)>, k: StreamKey)
    ensures IndexOfLabel(entries, StreamLabel(k)) == IndexOfKey(entries, k)
  {
    forall j | 0 <= j < |entries|
      ensures StreamLabel(entries[j].0) == StreamLabel(k) <==> entries[j].0 == k
    {
      StreamLabelInjective(entries[j].0, k);
    }
    IndexOfLabelByName(entries, k, StreamLabel(k));
  }

  /** The first entry, in table order, that a request matches. */
  function FirstMatch<S>(entries: seq<(StreamKey, S)>, request: StreamKey): (r: Option<nat>)
    ensures r.Some? ==> r.value < |entries| && KeyMatches(request, entries[r.value].0)
    ensures r.Some? ==> forall j :: 0 <= j < r.value ==> !KeyMatches(request, entries[j].0)
    ensures r.None? ==> forall j :: 0 <= j < |entries| ==> !KeyMatches(request, entries[j].0)
    decreases |entries|
  {
    if entries == [] then None
    else if KeyMatches(request, entries[0].0) then Some(0)
    else
      match FirstMatch(entries[1..], request)
      case None => None
      case Some(i) => Some(i + 1)
  }

  /** No key appears twice in the table. */
  predicate UniqueKeys<S>(entries: seq<(StreamKey, S)>) {
    forall i, j :: 0 <= i < j < |entries| ==> entries[i].0 != entries[j].0
  }

  /** Appending entries never moves a key that is already present, so a label
      once resolved keeps resolving to the same stream. */
  lemma {:induction false} IndexOfKeyStable<S>(entries: seq<(StreamKey, S)>, more: seq<(StreamKey, S)>, k: StreamKey)
    requires IndexOfKey(entries, k).Some?
    ensures IndexOfKey(entries + more, k) == IndexOfKey(entries, k)
    decreases |entries|
  {
    if entries[0].0 != k {
      assert (entries + more)[1..] == entries[1..] + more;
      IndexOfKeyStable(entries[1..], more, k);
    }
  }

  /** What an exact lookup (`getStream`) does with the table. */
  datatype ExactLookup = Existing(index: nat) | Refused | Created

  /** An existing key is reused; a new one is refused when only one stream
      is allowed and one exists, and created otherwise. */
  function ExactLookupOf<S>(entries: seq<(StreamKey, S)>, k: StreamKey, singleStream: bool): ExactLookup {
    match IndexOfKey(entries, k)
    case Some(i) => Existing(i)
    case None => if singleStream && |entries| > 0 then Refused else Created
  }

  /** The request `setSound` falls back to: same rate, any channels and block size. */
  function SimilarRequest(sampleRate: Field): (r: StreamKey)
    ensures !Concrete(r)
  {
    StreamKey(sampleRate, Wildcard, Wildcard)
  }
}
