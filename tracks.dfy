/**
 * TrackMetadata of the music sample: a record of four strings (the audio source, the title,
 * the artist and the thumbnail source) that the web page reads and writes through getters
 * and setters.
 */
module Tracks {

  /** The four fields of a track, as a value. */
  datatype TrackFields = TrackFields(src: string, title: string, artist: string, thumbnailSrc: string)

  /** The name of one field, for stating the setters' laws once for all four. */
  datatype Field = SrcField | TitleField | ArtistField | ThumbnailSrcField

  function Get(f: TrackFields, field: Field): string
  {
    match field
    case SrcField => f.src
    case TitleField => f.title
    case ArtistField => f.artist
    case ThumbnailSrcField => f.thumbnailSrc
  }

  /** The record with one field overwritten: what a setter does. */
  function With(f: TrackFields, field: Field, value: string): (g: TrackFields)
    ensures Get(g, field) == value
    ensures forall other :: other != field ==> Get(g, other) == Get(f, other)
  {
    match field
    case SrcField => f.(src := value)
    case TitleField => f.(title := value)
    case ArtistField => f.(artist := value)
    case ThumbnailSrcField => f.(thumbnailSrc := value)
  }

  /** Setting the same value twice is setting it once. */
  lemma WithIdempotent(f: TrackFields, field: Field, value: string)
    ensures With(With(f, field, value), field, value) == With(f, field, value)
  {
  }

  /** Setters of different fields commute. */
  lemma WithCommutes(f: TrackFields, a: Field, b: Field, x: string, y: string)
    requires a != b
    ensures With(With(f, a, x), b, y) == With(With(f, b, y), a, x)
  {
  }

  class TrackMetadata {
    var src: string
    var title: string
    var artist: string
    var thumbnailSrc: string

    /** The default constructor: every field is the empty string. */
    constructor Default()
      ensures Fields() == TrackFields("", "", "", "")
    {
      src, title, artist, thumbnailSrc := "", "", "", "";
    }

    constructor (src: string, title: string, artist: string, thumbnailSrc: string)
      ensures Src() == src && Title() == title && Artist() == artist && ThumbnailSrc() == thumbnailSrc
      ensures Fields() == TrackFields(src, title, artist, thumbnailSrc)
    {
      this.src := src;
      this.title := title;
      this.artist := artist;
      this.thumbnailSrc := thumbnailSrc;
    }

    function Fields(): TrackFields
      reads this
    {
      TrackFields(src, title, artist, thumbnailSrc)
    }

    function Src(): (v: string)
      reads this
      ensures v == Get(Fields(), SrcField)
    {
      src
    }

    function Title(): (v: string)
      reads this
      ensures v == Get(Fields(), TitleField)
    {
      title
    }

    function Artist(): (v: string)
      reads this
      ensures v == Get(Fields(), ArtistField)
    {
      artist
    }

    function ThumbnailSrc(): (v: string)
      reads this
      ensures v == Get(Fields(), ThumbnailSrcField)
    {
      thumbnailSrc
    }

    method SetSrc(value: string)
      modifies this`src
      ensures Src() == value
      ensures Fields() == With(old(Fields()), SrcField, value)
    {
      src := value;
    }

    method SetTitle(value: string)
      modifies this`title
      ensures Title() == value
      ensures Fields() == With(old(Fields()), TitleField, value)
    {
      title := value;
    }

    method SetArtist(value: string)
      modifies this`artist
      ensures Artist() == value
      ensures Fields() == With(old(Fields()), ArtistField, value)
    {
      artist := value;
    }

    method SetThumbnailSrc(value: string)
      modifies this`thumbnailSrc
      ensures ThumbnailSrc() == value
      ensures Fields() == With(old(Fields()), ThumbnailSrcField, value)
    {
      thumbnailSrc := value;
    }
  }

  /** A caller's view: what a setter writes is read back, and writing it again changes nothing. */
  method SetTwiceIsSetOnce(t: TrackMetadata, value: string)
    modifies t
    ensures t.Fields() == old(t.Fields()).(title := value)
  {
    t.SetTitle(value);
    ghost var once := t.Fields();
    t.SetTitle(value);
    assert t.Fields() == once;
  }
}
