# Movie explorer: view-model shaping and the watchlist store

A Dafny model of the logic inside `app.py`, a small Flask application that
shows TMDB trending and search results, a movie detail page, and a per-user
watchlist kept in SQLite.

It has two parts:

- **Shaping** (`shaping.dfy`, module `Shaping`). TMDB records, already decoded
  from JSON, become the records the pages display. The year is the first four
  characters of `release_date`. Poster and profile URLs are a fixed `w500` or
  `w200` base followed by the path, or `""` when there is no path. The result
  list is mapped one movie at a time. The cast is cut to its first six entries.
  The trailer is the first video of type `"Trailer"`. The loops of the source
  are methods with loop invariants. Each is proved against a specification
  function (`Mapped`, `FirstTrailer`/`TrailerUrl`), and the properties are
  proved about those functions.
- **Store** (`store.dfy`, module `Store`). Class `App` holds the `users` and
  `fav` tables and the session's `user` entry. It has one method per route:
  register, login, logout, addfav, watchlist and remove. The tables are
  sequences in insertion order. Every query is specified by how often each row
  occurs (its multiset count), because a `SELECT` without `ORDER BY` promises
  no order. The contracts keep the source's gaps: usernames need not be
  unique, duplicate favorites are kept, and removal checks neither the owner
  nor the session.

`wrappers.dfy` defines `Option`. `seqs.dfy` defines the order-preserving
`Mapped` and the multiset-exact `Filter`.

Passthrough JSON values are the opaque datatype `Shaping.Scalar`. These are
`id`, `title`, `vote_average`, `overview`, `runtime`, `name` and `character`.
Python's `dict.get` returns `None` both for a missing key and for a JSON
`null`, so `Scalar.Null` stands for both.

## Model

| member | source | states |
|---|---|---|
| Shaping.Year | app.py:72 | the year has length min(4, length of the date) and is a prefix of the date; a missing date counts as `""` |
| Shaping.YearSplitsDate | app.py:162 | for a date of four or more characters, the year followed by the rest of the date is the date |
| Shaping.ImageUrl | app.py:65-67 | the URL is `""` exactly when the path is missing or empty; otherwise it starts with the base and the rest is the path |
| Shaping.ImageUrlRoundTrip | app.py:155-157 | `PathOf` recovers the path from a poster or profile URL, and gives none for `""` |
| Shaping.ImageUrlInjective | app.py:139-141 | two non-empty paths that give the same image URL are the same path |
| Seqs.Mapped | app.py:97-112 | the list shaped from the results has the same length, and element i is the shaping of result i |
| Shaping.MovieList | app.py:61-76 | one card per entry of `results`, in order, with id, title, rating and overview copied, year as `Year` and poster as the `w500` URL; a missing `results` gives `[]` (the same loop is at app.py:97-112) |
| Shaping.CastList | app.py:137-147 | min(6, number of credits) entries; entry i has the name and character of credit i and its `w200` profile URL |
| Shaping.FirstTrailer | app.py:150-151 | the index found holds a video of type "Trailer" and no earlier video has that type; no index means no video has that type |
| Shaping.TrailerIgnoresLater | app.py:153 | once a list holds a trailer, appending more videos does not change which one is chosen |
| Shaping.FindTrailer | app.py:149-153 | with no "Trailer" video the trailer is `""`; otherwise it is the YouTube watch URL with the key of the first such video |
| Shaping.MovieDetail | app.py:159-168 | the detail record copies title, rating, overview and runtime, and holds the shaped year, poster, cast and trailer |
| Seqs.Filter | app.py:275 | every kept element occurs as often as in the input, and every other element does not occur |
| Store.OwnedBy | app.py:261-264 | a row is selected as often as it is stored when its owner is the given user, and never otherwise |
| Store.WithoutId | app.py:275 | no row with the given id is left; every other row is left as often as it was stored |
| Store.App.constructor | app.py:23-46 | `CREATE TABLE IF NOT EXISTS` keeps the rows already stored, so a new browser sees the existing tables, and its session is empty |
| Store.App.Register | app.py:175-190 | exactly one `(username, password)` row is appended, even when the pair exists; the favorites and the session are unchanged; redirect to `/login` |
| Store.App.Login | app.py:195-215 | the session user becomes `u` and the answer is a redirect to `/` exactly when the pair `(u, p)` is stored; otherwise the session is unchanged and the answer is "Invalid Login" |
| Store.App.Logout | app.py:220-223 | the session is empty; redirect to `/login` |
| Store.App.AddFav | app.py:228-251 | with no session, no change and a redirect to `/login`; with one, exactly one row tagged with the session user is appended, so the count of that row rises by one |
| Store.App.Watchlist | app.py:254-268 | with no session, a redirect to `/login`; with one, the page holds each row owned by the session user as often as it is stored, and no other row |
| Store.App.Remove | app.py:271-279 | for an id that the `/remove/<id>` route can carry (non-empty, no '/'), every row with the id is deleted, whatever its owner and whether or not there is a session; every other row keeps its count |
| Store.RegisteredUserCanLogIn | app.py:180-212 | after registering a pair, logging in with it sets the session user |
| Store.DuplicateFavoritesAreKept | app.py:236-246 | adding the same favorite twice raises that row's count by two, and the watchlist page then holds that row at least twice |
| Store.RemovalNeedsNoSession | app.py:271-279 | a favorite whose id the route can carry, added and then removed after logout, is gone, and the session stays empty |

## Left out

- Outbound HTTP and JSON decoding (app.py:56-59, app.py:88-95, app.py:122-135): the methods take already-decoded TMDB records. An upstream or decoding failure propagates as a server error, and that is not modelled.
- SQLite connection handling, commits and the database file (app.py:17-22, app.py:45-48): the tables are fields of `App`. The `CREATE TABLE IF NOT EXISTS` statements appear only as the constructor taking the tables as they are. The `users.id` autoincrement column is never read back, so it is not part of a `User` row.
- Flask routing, templates and the GET branches of `/register` and `/login`, which only render a form (app.py:192, app.py:217): a route's answer is a `Response` value that names the redirect target or the page's rows.
- Missing form fields (`request.form[...]` at app.py:86, app.py:180-181, app.py:200-201, app.py:239-243) fail the request with a 400 before any state changes. The model takes the fields as parameters and does not model that failure.
- Configuration: `load_dotenv`, `API_KEY` and the hardcoded `secret_key` (app.py:8-11).
- Shaping.Year: a JSON `null` `release_date` makes `[:4]` raise in the source. The model gives the date as an optional string, and `None` means the key is absent, which gives `""`.
- MovieList, CastList, FindTrailer: `None` for a list field means the key is absent and gives `[]`. A JSON `null` list makes the source raise (`for m in None` at app.py:63, app.py:99 and app.py:150; `None[:6]` at app.py:138), and that crash is not modelled.
- Remove: the `/remove/<id>` route (app.py:271) only matches a non-empty path segment without '/', so the model requires such an id (`RoutableId`). `/addfav` stores any form id (app.py:239), and a favorite whose id is empty or contains '/' can never be removed through the application; the model does not state that consequence.
- Shaping.FindTrailer: a first "Trailer" video with no `key` makes the source raise a KeyError at app.py:152. The model requires that key instead (`TrailerKeyed`).
- Poster, profile and video `type` values that are present but not strings (which would raise or never match in the source) are not modelled: those fields are `Option<string>`.
- `vote_average`, `runtime` and the other passthrough values are never inspected. No floating-point behaviour is modelled.
- Concurrency between requests, and the signing and expiry of the session cookie: each `App` is one browser's session over the shared tables, and calls run one at a time.
- Row order: `App`'s tables keep insertion order, but no contract about a query depends on that order.
