/** The preference order of encoders, from what the hardware probe found. */
module Hardware {
  import opened Wrappers
  import opened Media
  import opened Policy
  import opened Argv

  datatype Direction = EncodeProbe | DecodeProbe

  /** What a probe tries; profile matters to encode probes only. */
  datatype Question = Question(backend: Backend, direction: Direction, codec: Codec, profile: Profile)

  datatype Capability = Capability(asked: Question, works: bool)

  function ProfileFor(hdr: bool): Profile {
    if hdr then Main10 else Main
  }

  /** The first entry for a question decides; no entry means no. */
  predicate Works(caps: seq<Capability>, q: Question) {
    if caps == [] then false
    else if caps[0].asked == q then caps[0].works
    else Works(caps[1..], q)
  }

  /** Probe i is the first of its kind, and worked. */
  predicate FirstYes(caps: seq<Capability>, i: nat, q: Question) {
    i < |caps| && caps[i] == Capability(q, true) && forall j :: 0 <= j < i ==> caps[j].asked != q
  }

  /** The first probe of this kind worked. */
  ghost predicate Probed(caps: seq<Capability>, q: Question) {
    exists i :: FirstYes(caps, i, q)
  }

  lemma {:induction false} WorksFrom(caps: seq<Capability>, i: nat, q: Question)
    requires i <= |caps| && forall j :: 0 <= j < i ==> caps[j].asked != q
    ensures Works(caps[i..], q) <==> Probed(caps, q)
    decreases |caps| - i
  {
    if i < |caps| {
      if caps[i].asked == q {
        assert caps[i].works ==> FirstYes(caps, i, q);
      } else {
        assert caps[i..][1..] == caps[i+1..];
        WorksFrom(caps, i + 1, q);
      }
    }
  }

  lemma {:induction false} WorksExactly(caps: seq<Capability>, q: Question)
    ensures Works(caps, q) <==> Probed(caps, q)
  {
    assert caps[0..] == caps;
    WorksFrom(caps, 0, q);
  }

  predicate Encodes(caps: seq<Capability>, backend: Backend, hdr: bool) {
    Works(caps, Question(backend, EncodeProbe, Hevc, ProfileFor(hdr)))
  }

  /** QSV, then VAAPI, then libx265. */
  function Select(caps: seq<Capability>, hdr: bool): Encoder {
    if Encodes(caps, QsvBackend, hdr) then Qsv
    else if Encodes(caps, VaapiBackend, hdr) then Vaapi
    else Software
  }

  /** The encoder after one that failed; there is nothing below software. */
  function Next(caps: seq<Capability>, current: Encoder, hdr: bool): Option<Encoder> {
    match current
    case Qsv => Some(if Encodes(caps, VaapiBackend, hdr) then Vaapi else Software)
    case Vaapi => Some(Software)
    case Software => None
  }

  /** Whether the driver, as opposed to the silicon, decodes the source. */
  function SourceDecode(caps: seq<Capability>, encoder: Option<Encoder>, source: Codec): DecodePath {
    if encoder.None? || encoder.value.Software? || !HardwareDecodable(source) then SoftwareDecode
    else if source == Vp9 && !Works(caps, Question(BackendOf(encoder), DecodeProbe, Vp9, NO_PROFILE))
    then SoftwareDecode
    else HardwareDecode
  }
}
