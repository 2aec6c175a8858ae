/**
 Elastic Transcoder `Captions`: one presence-tracked list of caption
 formats (`Opaque` here) with an adder.
 */
module ElasticTranscoder {
  import opened Presence

  datatype Captions = Captions(
    captionFormats: Tracked<seq<Opaque>>)

  /** The HasBeenSet flags, in declaration order. */
  function Flags(p: Captions): seq<bool>
  {
    [ p.captionFormats.hasBeenSet ]
  }

  /** Default construction. The constructor body is not part of this model, so
      the initial values are a parameter; the member initialisers lower every
      flag. */
  function Default(initial: Captions): (p: Captions)
    ensures true !in Flags(p)
    ensures p.captionFormats.value == initial.captionFormats.value
  {
    Captions(
      Unset(initial.captionFormats.value))
  }

  /** `SetCaptionFormats` (`WithCaptionFormats` has the same effect and returns the object):
      stores the value and raises only this field's flag. */
  function SetCaptionFormats(p: Captions, v: seq<Opaque>): (r: Captions)
    ensures r.captionFormats == Tracked(v, true)
    ensures r.(captionFormats := p.captionFormats) == p
    ensures Flags(r) == Flags(p)[0 := true]
  {
    p.(captionFormats := Set(p.captionFormats, v))
  }

  /** `WithCaptionFormats`: the effect of `SetCaptionFormats`, returning the object itself. */
  function WithCaptionFormats(p: Captions, v: seq<Opaque>): (r: Captions)
    ensures r.captionFormats == Tracked(v, true)
    ensures r.(captionFormats := p.captionFormats) == p
    ensures Flags(r) == Flags(p)[0 := true]
  {
    SetCaptionFormats(p, v)
  }

  /** `AddCaptionFormats`: `push_back` at the end of the list; the flag is raised. */
  function AddCaptionFormats(p: Captions, x: Opaque): (r: Captions)
    ensures r.captionFormats.value == p.captionFormats.value + [x] && r.captionFormats.hasBeenSet
    ensures r.(captionFormats := p.captionFormats) == p
    ensures Flags(r) == Flags(p)[0 := true]
  {
    p.(captionFormats := Add(p.captionFormats, x))
  }

  /** `AddCaptionFormats` applied to each element of xs, in order. */
  function AddCaptionFormatsEach(p: Captions, xs: seq<Opaque>): Captions
    decreases |xs|
  {
    if xs == [] then p else AddCaptionFormatsEach(AddCaptionFormats(p, xs[0]), xs[1..])
  }

  /** Adding elements one at a time is the same as setting the list
      extended by all of them: order is kept, nothing is dropped or
      deduplicated, and no other field moves. */
  lemma {:induction false} AddCaptionFormatsEachAppends(p: Captions, xs: seq<Opaque>)
    ensures AddCaptionFormatsEach(p, xs) == p.(captionFormats := AddAll(p.captionFormats, xs))
    ensures xs != [] ==> AddCaptionFormatsEach(p, xs) == SetCaptionFormats(p, p.captionFormats.value + xs)
    decreases |xs|
  {
    if xs != [] {
      AddCaptionFormatsEachAppends(AddCaptionFormats(p, xs[0]), xs[1..]);
    }
    AddAllAppends(p.captionFormats, xs);
  }
}
