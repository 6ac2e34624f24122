/** The identity provider's callback (`app/auth/callback/route.ts`): exchange the one-time
    `code` for a session and redirect to `next`, or back to the login page on failure. The
    request URL is given as its origin and its query string; the exchange's outcome is an
    input. */
module AuthCallback {
  import opened Common
  import Login

  const DefaultNext: string := "/dashboard"
  const FailurePath: string := "/login?error=auth_callback_failed"

  // ---------------------------------------------------------------------------------------------
  // `searchParams.get(key)`, on a query of `name=value` fields separated by `&`

  /** The part of a field before its first `=` (the whole field when it has none). */
  function NameOf(field: string): string {
    Split(field, '=')[0]
  }

  /** The part of a field after its first `=` (empty when it has none). */
  function ValueOf(field: string): string {
    Join(Split(field, '=')[1..], '=')
  }

  /** The index of the first field named `key`, or `|fields|` when there is none. */
  function FirstNamed(fields: seq<string>, key: string): (i: nat)
    ensures i <= |fields|
    ensures i < |fields| ==> NameOf(fields[i]) == key
    ensures forall j :: 0 <= j < i ==> NameOf(fields[j]) != key
  {
    if fields == [] then 0
    else if NameOf(fields[0]) == key then 0
    else 1 + FirstNamed(fields[1..], key)
  }

  /** The value of the first field named `key`, absent when no field has that name. */
  function Param(query: string, key: string): (r: Option<string>)
    ensures r.Some? ==>
      exists i :: (0 <= i < |Split(query, '&')| && NameOf(Split(query, '&')[i]) == key
        && r.value == ValueOf(Split(query, '&')[i])
        && forall j :: 0 <= j < i ==> NameOf(Split(query, '&')[j]) != key)
    ensures r.None? ==> forall j :: 0 <= j < |Split(query, '&')| ==> NameOf(Split(query, '&')[j]) != key
  {
    var fields := Split(query, '&');
    var i := FirstNamed(fields, key);
    if i < |fields| then Some(ValueOf(fields[i])) else None
  }

  /** The query string of a URL: everything after its first `?`. */
  function QueryOf(url: string): string {
    Join(Split(url, '?')[1..], '?')
  }

  // ---------------------------------------------------------------------------------------------
  // The redirect decision

  /** `searchParams.get('next') ?? '/dashboard'`: only an absent parameter falls back; an empty
      one is kept. */
  function NextPath(next: Option<string>): (p: string)
    ensures next.Some? ==> p == next.value
    ensures next.None? ==> p == DefaultNext
  {
    if next.Some? then next.value else DefaultNext
  }

  /** The outcome of the callback: the code handed to the exchange, if any, and the redirect
      target. */
  datatype Redirect = Redirect(exchanged: Option<string>, location: string)

  /** `GET`: with a non-empty code the exchange is attempted, and a successful one redirects to
      `origin + next`; a missing or empty code, or a failed exchange, redirects to the login
      page with the failure flag. Every target starts with `origin`. */
  function Callback(origin: string, query: string, exchangeOk: bool): (r: Redirect)
    ensures IsPrefix(origin, r.location)
    ensures var code := Param(query, "code");
      r.exchanged == (if code.Some? && code.value != "" then code else None)
    ensures r.exchanged.Some? && exchangeOk ==> r.location == origin + NextPath(Param(query, "next"))
    ensures !(r.exchanged.Some? && exchangeOk) ==> r.location == origin + FailurePath
  {
    var code := Param(query, "code");
    if code.Some? && code.value != "" then
      if exchangeOk then Redirect(code, origin + NextPath(Param(query, "next")))
      else Redirect(code, origin + FailurePath)
    else Redirect(None, origin + FailurePath)
  }

  /** A field written `name=value` with no `=` in either part reads back as that name and value. */
  lemma NamedField(name: string, value: string)
    requires '=' !in name && '=' !in value
    ensures NameOf(name + "=" + value) == name && ValueOf(name + "=" + value) == value
  {
    assert name + "=" + value == name + ['='] + value;
    SplitAfterField(name, '=', value);
    SplitNoSeparator(value, '=');
  }

  /** Two fields joined by `&`, neither holding an `&`, split back into those two fields. */
  lemma TwoFields(a: string, b: string)
    requires '&' !in a && '&' !in b
    ensures Split(a + "&" + b, '&') == [a, b]
  {
    assert a + "&" + b == a + ['&'] + b;
    SplitAfterField(a, '&', b);
    SplitNoSeparator(b, '&');
  }

  /** The query after a path without `?`. */
  lemma QueryAfterPath(path: string, query: string)
    requires '?' !in path && '?' !in query
    ensures QueryOf(path + "?" + query) == query
  {
    assert path + "?" + query == path + ['?'] + query;
    SplitAfterField(path, '?', query);
    SplitNoSeparator(query, '?');
  }

  /** A query of two `name=value` fields with different names yields each value by its name. */
  lemma TwoParams(nameA: string, valueA: string, nameB: string, valueB: string)
    requires '=' !in nameA && '=' !in valueA && '=' !in nameB && '=' !in valueB
    requires '&' !in nameA && '&' !in valueA && '&' !in nameB && '&' !in valueB
    requires nameA != nameB
    ensures var query := nameA + "=" + valueA + "&" + nameB + "=" + valueB;
      Param(query, nameA) == Some(valueA) && Param(query, nameB) == Some(valueB)
  {
    var a, b := nameA + "=" + valueA, nameB + "=" + valueB;
    assert nameA + "=" + valueA + "&" + nameB + "=" + valueB == a + "&" + b;
    NamedField(nameA, valueA);
    NamedField(nameB, valueB);
    TwoFields(a, b);
    var fields := [a, b];
    assert FirstNamed(fields, nameA) == 0;
    assert FirstNamed(fields, nameB) == 1 by {
      assert fields[1..] == [b];
    }
  }

  /** A callback link `path?next=target`, returned by the provider with its `code` appended
      as a further field, lands on `target` once the code is exchanged. */
  lemma CallbackLandsOnNext(origin: string, path: string, target: string, code: string)
    requires '?' !in path
    requires '?' !in target && '&' !in target && '=' !in target
    requires code != [] && '&' !in code && '=' !in code
    ensures var r := Callback(origin, QueryOf(path + "?next=" + target) + "&code=" + code, true);
      r.exchanged == Some(code) && r.location == origin + target
  {
    assert path + "?next=" + target == path + "?" + ("next" + "=" + target);
    QueryAfterPath(path, "next" + "=" + target);
    assert "next" + "=" + target + "&code=" + code == "next" + "=" + target + "&" + "code" + "=" + code;
    TwoParams("next", target, "code", code);
  }

  /** The reset link the login page asks the provider for leads, once exchanged, to the
      password-update page. */
  lemma ResetLinkLandsOnUpdatePassword(origin: string, code: string)
    requires code != [] && '&' !in code && '=' !in code
    ensures var r := Callback(origin, QueryOf(Login.ResetRedirectPath) + "&code=" + code, true);
      r.exchanged == Some(code) && r.location == origin + "/update-password"
  {
    assert Login.ResetRedirectPath == "/auth/callback" + "?next=" + "/update-password";
    CallbackLandsOnNext(origin, "/auth/callback", "/update-password", code);
  }
}
