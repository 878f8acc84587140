/**
 * `MPDSong`: an item whose name is the title, with the tag fields the
 * server reports. Getters of four optional tags fall back to defaults;
 * `equals` compares the raw fields; `hashCode` uses only name, file, id
 * and position; `compareTo` orders by album text followed by the track
 * number zero-padded to eight places.
 */
module Songs {
  import opened Wrappers
  import opened JavaLang
  import opened Items

  /**
   * An `MPDAlbum` or `MPDArtist` value: an item with a nullable name, equal
   * to another of its class when the names are equal, printed as its name.
   */
  datatype NamedItem = NamedItem(name: Option<string>)

  /**
   * What `StringBuffer.append(o)` adds for a possibly null album or artist:
   * "null" for a null reference or a null string form, else the name.
   */
  function AppendedForm(item: Option<NamedItem>): (r: string)
    ensures item.Some? && item.value.name.Some? ==> r == item.value.name.value
    ensures item.None? || item.value.name.None? ==> r == "null"
  {
    match item
    case None => "null"
    case Some(NamedItem(n)) => if n.None? then "null" else n.value
  }

  /** `formatToComparableString(i)`: `String.format("%1$08d", i)`. */
  function FormatToComparableString(i: int): string
  {
    FormatZeroPadded(i, 8)
  }

  /**
   * For tracks in [0, 10^8) the padded form is exactly eight digits, and
   * comparing the padded strings orders them as the numbers are ordered.
   */
  lemma FormatToComparableStringOrder(i: int, j: int)
    requires 0 <= i < Pow10(8) && 0 <= j < Pow10(8)
    ensures |FormatToComparableString(i)| == 8
    ensures CompareTo(FormatToComparableString(i), FormatToComparableString(j)) < 0 <==> i < j
    ensures CompareTo(FormatToComparableString(i), FormatToComparableString(j)) == 0 <==> i == j
  {
    ZeroPaddedEight(i);
    ZeroPaddedEight(j);
    FixedDigitsOrder(i, j, 8);
  }

  /** Every field of a song, as one value. */
  datatype SongFields = SongFields(
    name: Option<string>, artist: Option<NamedItem>, album: Option<NamedItem>,
    file: Option<string>, genre: Option<string>, comment: Option<string>,
    year: Option<string>, discNumber: Option<string>,
    length: int, track: int, position: int, id: int)

  class Song {
    /** The `MPDItem` name, which is the title. */
    var name: Option<string>
    var artist: Option<NamedItem>
    var album: Option<NamedItem>
    var file: Option<string>
    var genre: Option<string>
    var comment: Option<string>
    var year: Option<string>
    var discNumber: Option<string>
    var length: int
    var track: int
    var position: int
    var id: int

    function Fields(): SongFields
      reads this
    {
      SongFields(name, artist, album, file, genre, comment, year, discNumber, length, track, position, id)
    }

    /** `new MPDSong()`: every reference field null, length and track 0, position and id -1. */
    constructor ()
      ensures Fields() == SongFields(None, None, None, None, None, None, None, None, 0, 0, -1, -1)
    {
      name, artist, album, file := None, None, None, None;
      genre, comment, year, discNumber := None, None, None, None;
      length, track, position, id := 0, 0, -1, -1;
    }

    function GetName(): Option<string> reads this { name }

    /** `getTitle()` is `getName()`. */
    function GetTitle(): (r: Option<string>)
      reads this
      ensures r == GetName()
    {
      GetName()
    }

    function GetArtist(): Option<NamedItem> reads this { artist }
    function GetAlbum(): Option<NamedItem> reads this { album }
    function GetFile(): Option<string> reads this { file }
    function GetLength(): int reads this { length }
    function GetTrack(): int reads this { track }
    function GetPosition(): int reads this { position }
    function GetId(): int reads this { id }

    /** The genre, or "No Genre" when it was never set. */
    function GetGenre(): (r: string)
      reads this
      ensures genre.Some? ==> r == genre.value
      ensures genre.None? ==> r == "No Genre"
    {
      if genre.Some? then genre.value else "No Genre"
    }

    /** The comment, or "" when it was never set. */
    function GetComment(): (r: string)
      reads this
      ensures comment.Some? ==> r == comment.value
      ensures comment.None? ==> r == ""
    {
      if comment.Some? then comment.value else ""
    }

    /** The year, or "No Year" when it was never set. */
    function GetYear(): (r: string)
      reads this
      ensures year.Some? ==> r == year.value
      ensures year.None? ==> r == "No Year"
    {
      if year.Some? then year.value else "No Year"
    }

    /** The disc number, or "" when it was never set. */
    function GetDiscNumber(): (r: string)
      reads this
      ensures discNumber.Some? ==> r == discNumber.value
      ensures discNumber.None? ==> r == ""
    {
      if discNumber.Some? then discNumber.value else ""
    }

    /** `setName(name)`, inherited from the item. */
    method SetName(name: Option<string>)
      modifies this`name
      ensures Fields() == old(Fields()).(name := name)
    {
      this.name := name;
    }

    /** `setTitle(title)` is `setName(title)`. */
    method SetTitle(title: Option<string>)
      modifies this`name
      ensures Fields() == old(Fields()).(name := title)
    {
      SetName(title);
    }

    method SetArtist(artist: Option<NamedItem>)
      modifies this`artist
      ensures Fields() == old(Fields()).(artist := artist)
    {
      this.artist := artist;
    }

    method SetAlbum(album: Option<NamedItem>)
      modifies this`album
      ensures Fields() == old(Fields()).(album := album)
    {
      this.album := album;
    }

    /** `setFile(path)` keeps the path exactly as given (no slash is stripped). */
    method SetFile(path: Option<string>)
      modifies this`file
      ensures Fields() == old(Fields()).(file := path)
    {
      this.file := path;
    }

    method SetLength(length: int)
      modifies this`length
      ensures Fields() == old(Fields()).(length := length)
    {
      this.length := length;
    }

    method SetTrack(track: int)
      modifies this`track
      ensures Fields() == old(Fields()).(track := track)
    {
      this.track := track;
    }

    method SetGenre(genre: Option<string>)
      modifies this`genre
      ensures Fields() == old(Fields()).(genre := genre)
    {
      this.genre := genre;
    }

    method SetComment(comment: Option<string>)
      modifies this`comment
      ensures Fields() == old(Fields()).(comment := comment)
    {
      this.comment := comment;
    }

    method SetYear(year: Option<string>)
      modifies this`year
      ensures Fields() == old(Fields()).(year := year)
    {
      this.year := year;
    }

    method SetPosition(position: int)
      modifies this`position
      ensures Fields() == old(Fields()).(position := position)
    {
      this.position := position;
    }

    method SetId(id: int)
      modifies this`id
      ensures Fields() == old(Fields()).(id := id)
    {
      this.id := id;
    }

    method SetDiscNumber(discNumber: Option<string>)
      modifies this`discNumber
      ensures Fields() == old(Fields()).(discNumber := discNumber)
    {
      this.discNumber := discNumber;
    }

    /**
     * `equals(obj)`: the item test (same reference, or same class and equal
     * names), then each raw field null-safely: file, album, artist, comment,
     * disc number, genre, id, length, position, track, year. The defaulted
     * getters are not consulted. An argument of another class is never
     * equal; a `Song?` parameter covers the songs.
     */
    predicate Equals(other: Song?)
      reads this, other
    {
      if this == other then true
      else if other == null || !NamesEqual(name, other.name) then false
      else if !NamesEqual(file, other.file) then false
      else if album != other.album then false
      else if artist != other.artist then false
      else if !NamesEqual(comment, other.comment) then false
      else if !NamesEqual(discNumber, other.discNumber) then false
      else if !NamesEqual(genre, other.genre) then false
      else if id != other.id then false
      else if length != other.length then false
      else if position != other.position then false
      else if track != other.track then false
      else NamesEqual(year, other.year)
    }

    /**
     * `hashCode()`: the item hash of the name (which throws on a null name,
     * giving `None`), then file, id and position mixed in with 31.
     */
    function HashCode(): Option<int>
      reads this
    {
      match NameHash(name)
      case None => None
      case Some(h) =>
        var r := WrapInt(31 * h + (if file.None? then 0 else StringHash(file.value)));
        var r' := WrapInt(31 * r + id);
        Some(WrapInt(31 * r' + position))
    }

    /** The string `compareTo` builds for a song: its album's appended form, then the padded track. */
    function ComparableString(): string
      reads this
    {
      AppendedForm(album) + FormatToComparableString(track)
    }

    /** `compareTo(item)` against another song. */
    function CompareTo(song: Song): int
      reads this, song
    {
      JavaLang.CompareTo(ComparableString(), song.ComparableString())
    }
  }

  /** `equals` holds exactly when every field, the name included, is equal. */
  lemma EqualsCharacterized(a: Song, b: Song?)
    ensures a.Equals(b) <==> b != null && a.Fields() == b.Fields()
  {
  }

  /** The hash reads only name, file, id and position: songs agreeing on those hash equally. */
  lemma HashUsesFourFields(a: Song, b: Song)
    requires a.name == b.name && a.file == b.file && a.id == b.id && a.position == b.position
    ensures a.HashCode() == b.HashCode()
  {
  }

  /** Equal songs hash equally, and hashing succeeds exactly when the name is non-null. */
  lemma EqualSongsHashEqually(a: Song, b: Song)
    requires a.Equals(b)
    ensures a.HashCode() == b.HashCode()
    ensures a.HashCode().Some? <==> a.name.Some?
  {
    EqualsCharacterized(a, b);
  }

  /** An unset genre is not "No Genre" for `equals`, though the getters agree. */
  lemma DefaultsDoNotCountForEquality(a: Song, b: Song)
    requires a.Fields() == b.Fields().(genre := None) && b.genre == Some("No Genre")
    ensures a.GetGenre() == b.GetGenre()
    ensures !a.Equals(b)
  {
    EqualsCharacterized(a, b);
  }

  /** Songs whose albums print the same are ordered by track number, for tracks in [0, 10^8). */
  lemma CompareToByTrack(a: Song, b: Song)
    requires AppendedForm(a.album) == AppendedForm(b.album)
    requires 0 <= a.track < Pow10(8) && 0 <= b.track < Pow10(8)
    ensures a.CompareTo(b) < 0 <==> a.track < b.track
    ensures a.CompareTo(b) == 0 <==> a.track == b.track
  {
    CompareToCommonPrefix(AppendedForm(a.album), FormatToComparableString(a.track), FormatToComparableString(b.track));
    FormatToComparableStringOrder(a.track, b.track);
  }

  /** `compareTo` is antisymmetric (swapping the songs negates it). */
  lemma CompareToAntisymmetry(a: Song, b: Song)
    ensures b.CompareTo(a) == -a.CompareTo(b)
  {
    CompareToAntisymmetric(a.ComparableString(), b.ComparableString());
  }
}
