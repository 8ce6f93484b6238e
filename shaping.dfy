/** The TMDB view-model shaping of app.py: raw, already-decoded TMDB records
    become the records the index, search and detail pages display. */
module Shaping {
  import opened Wrappers
  import opened Seqs

  /** A JSON scalar that the pages show as it came from TMDB and that the
      model never inspects. Python's `dict.get` turns a missing key and a JSON
      `null` into the same `None`, so `Null` stands for both. A number is kept
      as its literal text: no arithmetic is ever done on it. */
  datatype Scalar = Null | Bool(b: bool) | Number(literal: string) | Str(s: string)

  const PosterBase := "https://image.tmdb.org/t/p/w500"
  const ProfileBase := "https://image.tmdb.org/t/p/w200"
  const WatchBase := "https://www.youtube.com/watch?v="

  /** A movie object of a TMDB `results` list or of a movie-by-id response.
      `releaseDate` and `posterPath` are `None` when the key is absent. */
  datatype RawMovie = RawMovie(
    id: Scalar, title: Scalar, releaseDate: Option<string>, voteAverage: Scalar,
    overview: Scalar, posterPath: Option<string>, runtime: Scalar)

  /** An entry of the `cast` list of a credits response. */
  datatype RawCast = RawCast(name: Scalar, character: Scalar, profilePath: Option<string>)

  /** An entry of the `results` list of a videos response; `kind` is its `type`. */
  datatype RawVideo = RawVideo(kind: Option<string>, key: Option<string>)

  /** One card of the index and search grids. */
  datatype MovieView = MovieView(
    id: Scalar, title: Scalar, year: string, rating: Scalar, overview: Scalar, poster: string)

  datatype CastView = CastView(name: Scalar, character: Scalar, image: string)

  /** The detail page's movie. */
  datatype DetailView = DetailView(
    title: Scalar, rating: Scalar, year: string, overview: Scalar, poster: string,
    runtime: Scalar, cast: seq<CastView>, trailer: string)

  function Min(a: int, b: int): int { if a < b then a else b }

  /** The displayed year: the first four characters of the release date, a
      shorter date whole, and the empty string when the date is absent. */
  function Year(releaseDate: Option<string>): (year: string)
    ensures var d := releaseDate.GetOr(""); |year| == Min(4, |d|) && year <= d
  {
    var d := releaseDate.GetOr("");
    d[..Min(4, |d|)]
  }

  /** Python truthiness of an optional path: present and not empty. */
  predicate HasPath(path: Option<string>) {
    path.Some? && path.value != ""
  }

  /** An image URL: `base` followed by the path, or "" when there is no path. */
  function ImageUrl(base: string, path: Option<string>): (url: string)
    ensures url == "" <==> !HasPath(path)
    ensures url != "" ==> base <= url && url[|base|..] == path.value
  {
    if HasPath(path) then base + path.value else ""
  }

  function PosterUrl(path: Option<string>): string { ImageUrl(PosterBase, path) }

  function ProfileUrl(path: Option<string>): string { ImageUrl(ProfileBase, path) }

  /** The path an image URL was built from: the inverse of `ImageUrl`. */
  function PathOf(base: string, url: string): (path: Option<string>)
    ensures path.Some? ==> base + path.value == url
  {
    if url != "" && base <= url then Some(url[|base|..]) else None
  }

  /** The path can be read back from the URL, so two movies with different
      poster paths never share a poster URL. */
  lemma ImageUrlRoundTrip(base: string, path: Option<string>)
    ensures PathOf(base, ImageUrl(base, path)) == if HasPath(path) then path else None
  {
  }

  lemma ImageUrlInjective(base: string, p: Option<string>, q: Option<string>)
    requires HasPath(p) && HasPath(q)
    requires ImageUrl(base, p) == ImageUrl(base, q)
    ensures p == q
  {
  }

  /** The year is a prefix that the rest of a full date completes. */
  lemma YearSplitsDate(d: string)
    requires |d| >= 4
    ensures Year(Some(d)) + d[4..] == d
  {
  }

  /** One card of the grid, shaped from one TMDB movie. */
  function ShapeMovie(m: RawMovie): MovieView {
    MovieView(m.id, m.title, Year(m.releaseDate), m.voteAverage, m.overview, PosterUrl(m.posterPath))
  }

  function ShapeCast(c: RawCast): CastView {
    CastView(c.name, c.character, ProfileUrl(c.profilePath))
  }

  /** The `for m in data.get("results", [])` loop of the index and search
      pages: one card per result, in the order of the results. `None` means
      the `results` key is absent, which gives no cards; a JSON `null` list,
      on which the source's loop raises, is not modelled. */
  method MovieList(results: Option<seq<RawMovie>>) returns (movies: seq<MovieView>)
    ensures var rs := results.GetOr([]);
      |movies| == |rs| &&
      (forall i :: 0 <= i < |rs| ==>
        movies[i].id == rs[i].id && movies[i].title == rs[i].title &&
        movies[i].rating == rs[i].voteAverage && movies[i].overview == rs[i].overview &&
        movies[i].year == Year(rs[i].releaseDate) && movies[i].poster == PosterUrl(rs[i].posterPath))
    ensures movies == Mapped(ShapeMovie, results.GetOr([]))
  {
    var rs := results.GetOr([]);
    movies := [];
    for i := 0 to |rs|
      invariant |movies| == i
      invariant forall k :: 0 <= k < i ==> movies[k] == ShapeMovie(rs[k])
    {
      var m := rs[i];
      var poster := "";
      if HasPath(m.posterPath) {
        poster := PosterBase + m.posterPath.value;
      }
      movies := movies + [MovieView(m.id, m.title, Year(m.releaseDate), m.voteAverage, m.overview, poster)];
    }
  }

  /** The cast loop of the detail page: at most the first six credits, each
      with its name, character and `w200` profile image. `None` means the
      `cast` key is absent, which gives no entries; a JSON `null` list, which
      the source's `[:6]` raises on, is not modelled. */
  method CastList(credits: Option<seq<RawCast>>) returns (cast: seq<CastView>)
    ensures var cs := credits.GetOr([]);
      |cast| == Min(6, |cs|) &&
      (forall i :: 0 <= i < |cast| ==>
        cast[i].name == cs[i].name && cast[i].character == cs[i].character &&
        cast[i].image == ProfileUrl(cs[i].profilePath))
    ensures var cs := credits.GetOr([]); cast == Mapped(ShapeCast, cs[..Min(6, |cs|)])
  {
    var all := credits.GetOr([]);
    var cs := all[..Min(6, |all|)];
    cast := [];
    for i := 0 to |cs|
      invariant |cast| == i
      invariant forall k :: 0 <= k < i ==> cast[k] == ShapeCast(cs[k])
    {
      var c := cs[i];
      var img := "";
      if HasPath(c.profilePath) {
        img := ProfileBase + c.profilePath.value;
      }
      cast := cast + [CastView(c.name, c.character, img)];
    }
  }

  predicate IsTrailer(v: RawVideo) {
    v.kind == Some("Trailer")
  }

  /** The position of the first video of type "Trailer", if there is one. */
  function FirstTrailer(vs: seq<RawVideo>): (r: Option<nat>)
    ensures r.Some? ==> r.value < |vs| && IsTrailer(vs[r.value])
    ensures r.Some? ==> forall j :: 0 <= j < r.value ==> !IsTrailer(vs[j])
    ensures r.None? ==> forall j :: 0 <= j < |vs| ==> !IsTrailer(vs[j])
  {
    if vs == [] then None
    else if IsTrailer(vs[0]) then Some(0)
    else match FirstTrailer(vs[1..])
      case None => None
      case Some(i) => Some(i + 1)
  }

  /** The first trailer, when there is one, carries the `key` the watch URL needs. */
  predicate TrailerKeyed(vs: seq<RawVideo>) {
    match FirstTrailer(vs)
    case None => true
    case Some(i) => vs[i].key.Some?
  }

  /** The YouTube watch URL of the first trailer, or "" when there is none. */
  function TrailerUrl(vs: seq<RawVideo>): string
    requires TrailerKeyed(vs)
  {
    match FirstTrailer(vs)
    case None => ""
    case Some(i) => WatchBase + vs[i].key.value
  }

  /** Later trailers never matter: putting anything after a list that
      already has a trailer leaves the chosen trailer as it was. */
  lemma {:induction false} TrailerIgnoresLater(vs: seq<RawVideo>, more: seq<RawVideo>)
    requires FirstTrailer(vs).Some?
    ensures FirstTrailer(vs + more) == FirstTrailer(vs)
  {
    if !IsTrailer(vs[0]) {
      assert (vs + more)[1..] == vs[1..] + more;
      TrailerIgnoresLater(vs[1..], more);
    }
  }

  /** The videos loop of the detail page: a first-match scan for type
      "Trailer" that stops at the first one. `None` means the `results` key
      is absent, which gives no trailer; a JSON `null` list, on which the
      source's loop raises, is not modelled. */
  method FindTrailer(videos: Option<seq<RawVideo>>) returns (trailer: string)
    requires TrailerKeyed(videos.GetOr([]))
    ensures var vs := videos.GetOr([]);
      (forall j :: 0 <= j < |vs| ==> !IsTrailer(vs[j])) ==> trailer == ""
    ensures var vs := videos.GetOr([]);
      forall i :: 0 <= i < |vs| && IsTrailer(vs[i]) && (forall j :: 0 <= j < i ==> !IsTrailer(vs[j])) ==>
        vs[i].key.Some? && trailer == WatchBase + vs[i].key.value
    ensures trailer == TrailerUrl(videos.GetOr([]))
  {
    var vs := videos.GetOr([]);
    trailer := "";
    for i := 0 to |vs|
      invariant forall j :: 0 <= j < i ==> !IsTrailer(vs[j])
      invariant trailer == ""
    {
      if IsTrailer(vs[i]) {
        trailer := WatchBase + vs[i].key.value;
        break;
      }
    }
  }

  /** The detail page's movie, composed from the three TMDB responses. */
  method MovieDetail(m: RawMovie, credits: Option<seq<RawCast>>, videos: Option<seq<RawVideo>>)
    returns (movie: DetailView)
    requires TrailerKeyed(videos.GetOr([]))
    ensures movie.title == m.title && movie.rating == m.voteAverage &&
      movie.overview == m.overview && movie.runtime == m.runtime
    ensures movie.year == Year(m.releaseDate) && movie.poster == PosterUrl(m.posterPath)
    ensures var cs := credits.GetOr([]); movie.cast == Mapped(ShapeCast, cs[..Min(6, |cs|)])
    ensures movie.trailer == TrailerUrl(videos.GetOr([]))
  {
    var cast := CastList(credits);
    var trailer := FindTrailer(videos);
    var poster := "";
    if HasPath(m.posterPath) {
      poster := PosterBase + m.posterPath.value;
    }
    movie := DetailView(m.title, m.voteAverage, Year(m.releaseDate), m.overview, poster,
                        m.runtime, cast, trailer);
  }
}
