/** The account, session and favorites routes of app.py over the `users` and
    `fav` tables and the Flask session. The tables are kept in insertion
    order, but every query is specified by how many times each row occurs
    (a multiset), because an SQL SELECT without ORDER BY promises no order. */
module Store {
  import opened Wrappers
  import opened Seqs

  /** A `users` row. The generated `id` column is never read back and is left out. */
  datatype User = User(username: string, password: string)

  /** The five form fields of `/addfav`. */
  datatype FavForm = FavForm(id: string, title: string, poster: string, rating: string, year: string)

  /** A `fav` row: the form fields tagged with the owner's username. */
  datatype Fav = Fav(id: string, title: string, poster: string, rating: string, year: string, user: string)

  /** What a route answers: a redirect, the plain-text login failure, or the
      watchlist page with its rows. */
  datatype Response = Redirect(location: string) | Text(body: string) | WatchlistPage(movies: seq<Fav>)

  function Tagged(f: FavForm, user: string): Fav {
    Fav(f.id, f.title, f.poster, f.rating, f.year, user)
  }

  /** The rows `SELECT * FROM fav WHERE user=?` returns, in table order. */
  function OwnedBy(rows: seq<Fav>, user: string): (r: seq<Fav>)
    ensures forall x :: multiset(r)[x] == if x.user == user then multiset(rows)[x] else 0
  {
    Filter((x: Fav) => x.user == user, rows)
  }

  /** The rows left by `DELETE FROM fav WHERE id=?`, in table order. */
  function WithoutId(rows: seq<Fav>, id: string): (r: seq<Fav>)
    ensures forall x :: multiset(r)[x] == if x.id == id then 0 else multiset(rows)[x]
  {
    Filter((x: Fav) => x.id != id, rows)
  }

  /** What Flask's default converter matches for `<id>` in a route: a
      non-empty path segment, which holds no '/'. */
  predicate RoutableId(id: string) {
    id != "" && '/' !in id
  }

  /** One browser's view of the application: the two tables it shares with
      everyone and its own session, which holds at most the `user` key. */
  class App {
    var users: seq<User>
    var fav: seq<Fav>
    var sessionUser: Option<string>

    /** A new browser on an existing database: the tables as they are, no session. */
    constructor (users: seq<User>, fav: seq<Fav>)
      ensures this.users == users && this.fav == fav && sessionUser == None
    {
      this.users := users;
      this.fav := fav;
      sessionUser := None;
    }

    /** POST /register: insert the pair whatever is already there, then go to the login page. */
    method Register(u: string, p: string) returns (resp: Response)
      modifies this
      ensures users == old(users) + [User(u, p)]
      ensures multiset(users)[User(u, p)] == old(multiset(users))[User(u, p)] + 1
      ensures fav == old(fav) && sessionUser == old(sessionUser)
      ensures resp == Redirect("/login")
    {
      users := users + [User(u, p)];
      resp := Redirect("/login");
    }

    /** POST /login: the session user becomes `u` exactly when a row holds
        this very pair; otherwise the answer is the text "Invalid Login". */
    method Login(u: string, p: string) returns (resp: Response)
      modifies this`sessionUser
      ensures User(u, p) in users ==> sessionUser == Some(u) && resp == Redirect("/")
      ensures User(u, p) !in users ==> sessionUser == old(sessionUser) && resp == Text("Invalid Login")
    {
      if User(u, p) in users {
        sessionUser := Some(u);
        resp := Redirect("/");
      } else {
        resp := Text("Invalid Login");
      }
    }

    /** GET /logout: the session is emptied. */
    method Logout() returns (resp: Response)
      modifies this`sessionUser
      ensures sessionUser == None && resp == Redirect("/login")
    {
      sessionUser := None;
      resp := Redirect("/login");
    }

    /** POST /addfav: without a session, a redirect to the login page and no
        change; with one, exactly one more row tagged with the session user,
        even when an equal row is already there. */
    method AddFav(form: FavForm) returns (resp: Response)
      modifies this`fav
      ensures old(sessionUser).None? ==> fav == old(fav) && resp == Redirect("/login")
      ensures old(sessionUser).Some? ==>
        fav == old(fav) + [Tagged(form, sessionUser.value)] &&
        multiset(fav)[Tagged(form, sessionUser.value)] == old(multiset(fav))[Tagged(form, sessionUser.value)] + 1 &&
        resp == Redirect("/watchlist")
    {
      if sessionUser.None? {
        return Redirect("/login");
      }
      fav := fav + [Tagged(form, sessionUser.value)];
      resp := Redirect("/watchlist");
    }

    /** GET /watchlist: without a session, a redirect to the login page; with
        one, every row owned by the session user, as often as it is stored,
        and no other row. */
    method Watchlist() returns (resp: Response)
      ensures sessionUser.None? ==> resp == Redirect("/login")
      ensures sessionUser.Some? ==> (resp.WatchlistPage? &&
        forall x :: multiset(resp.movies)[x] == if x.user == sessionUser.value then multiset(fav)[x] else 0)
    {
      if sessionUser.None? {
        return Redirect("/login");
      }
      resp := WatchlistPage(OwnedBy(fav, sessionUser.value));
    }

    /** GET /remove/<id>: every row with this id goes, whoever owns it and
        whether or not anyone is logged in; every other row stays as often
        as it was. The id comes from the URL path, so it is one non-empty
        path segment. */
    method Remove(id: string) returns (resp: Response)
      requires RoutableId(id)
      modifies this`fav
      ensures forall x :: multiset(fav)[x] == if x.id == id then 0 else old(multiset(fav))[x]
      ensures fav == WithoutId(old(fav), id)
      ensures resp == Redirect("/watchlist")
    {
      fav := WithoutId(fav, id);
      resp := Redirect("/watchlist");
    }
  }

  /** Registering and then logging in with the same pair always succeeds,
      even when the username was already taken. */
  method RegisteredUserCanLogIn(app: App, u: string, p: string)
    modifies app
    ensures app.sessionUser == Some(u)
  {
    var _ := app.Register(u, p);
    var resp := app.Login(u, p);
    assert resp == Redirect("/");
  }

  /** Adding the same favorite twice while logged in stores two equal rows,
      and the owner's watchlist then shows it (at least) twice. */
  method DuplicateFavoritesAreKept(app: App, form: FavForm) returns (page: Response)
    requires app.sessionUser.Some?
    modifies app
    ensures multiset(app.fav)[Tagged(form, app.sessionUser.value)] ==
      old(multiset(app.fav))[Tagged(form, app.sessionUser.value)] + 2
    ensures page.WatchlistPage? && multiset(page.movies)[Tagged(form, app.sessionUser.value)] >= 2
  {
    var _ := app.AddFav(form);
    var _ := app.AddFav(form);
    page := app.Watchlist();
  }

  /** A favorite whose id can stand in a `/remove/<id>` URL can be removed
      after its owner has logged out: removal needs no session and checks
      no owner. */
  method RemovalNeedsNoSession(app: App, form: FavForm)
    requires app.sessionUser.Some?
    requires RoutableId(form.id)
    modifies app
    ensures app.sessionUser == None
    ensures Tagged(form, old(app.sessionUser).value) !in app.fav
  {
    var _ := app.AddFav(form);
    var _ := app.Logout();
    var _ := app.Remove(form.id);
    assert multiset(app.fav)[Tagged(form, old(app.sessionUser).value)] == 0;
  }
}
