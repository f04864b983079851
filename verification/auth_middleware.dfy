/** The route guard of middleware/auth.js: reads the `Authorization` header,
    takes the second space-separated field as the token, and either verifies
    it with the fixed secret or only decodes it, depending on its length.
    Its one effect, setting `req.userId` and calling `next`, is the returned
    `Outcome`; `jwt.verify` and `jwt.decode` are parameters. */
module AuthMiddleware {
  import opened Common

  /** The secret the guard verifies with (`const secret = 'test'`). */
  const Secret: string := "test"

  const BearerPrefix: string := "Bearer "

  /** Tokens shorter than this are taken as locally issued. */
  const CustomTokenLimit: nat := 500

  /** The claims of a decoded token that the guard reads. */
  datatype Claims = Claims(id: Option<string>, sub: Option<string>)

  /** 401 "Unauthorized", 500 "Server error", or `next()` with `req.userId`. */
  datatype Outcome = Unauthorized | ServerError | Proceed(userId: Option<string>)

  /** `fields.join(sep)`. */
  function Join(fields: seq<string>, sep: char): string
    requires |fields| >= 1
  {
    if |fields| == 1 then fields[0] else fields[0] + [sep] + Join(fields[1..], sep)
  }

  /** `s.split(sep)` for a one-character separator: the maximal runs between
      separators, empty ones included. The first field is the text before the
      first separator. */
  function Split(s: string, sep: char): (fields: seq<string>)
    ensures |fields| >= 1
    ensures forall i :: 0 <= i < |fields| ==> sep !in fields[i]
    ensures Join(fields, sep) == s
    ensures |fields[0]| <= |s| && fields[0] == s[..|fields[0]|]
    ensures |fields[0]| < |s| ==> s[|fields[0]|] == sep
    ensures |fields| == 1 <==> sep !in s
  {
    if s == [] then [""]
    else
      var rest := Split(s[1..], sep);
      if s[0] == sep then
        [""] + rest
      else
        assert s == [s[0]] + s[1..];
        [[s[0]] + rest[0]] + rest[1..]
  }

  /** Splitting a joined list gives the list back when no field holds the
      separator. */
  lemma {:induction false} SplitJoin(fields: seq<string>, sep: char)
    requires |fields| >= 1
    requires forall i :: 0 <= i < |fields| ==> sep !in fields[i]
    ensures Split(Join(fields, sep), sep) == fields
  {
    if |fields| == 1 {
      SplitWord(fields[0], sep);
    } else {
      SplitJoin(fields[1..], sep);
      SplitAfterWord(fields[0], Join(fields[1..], sep), sep);
    }
  }

  /** A word without separators splits into itself. */
  lemma SplitWord(w: string, sep: char)
    requires sep !in w
    ensures Split(w, sep) == [w]
  {
  }

  /** A leading word followed by a separator becomes the first field, and the
      rest splits on its own. */
  lemma {:induction false} SplitAfterWord(w: string, rest: string, sep: char)
    requires sep !in w
    ensures Split(w + [sep] + rest, sep) == [w] + Split(rest, sep)
  {
    if w == [] {
      assert w + [sep] + rest == [sep] + rest;
      assert ([sep] + rest)[1..] == rest;
    } else {
      var s := w + [sep] + rest;
      assert s[0] == w[0] && s[0] != sep;
      assert s[1..] == w[1..] + [sep] + rest;
      SplitAfterWord(w[1..], rest, sep);
      var r := Split(s[1..], sep);
      assert r == [w[1..]] + Split(rest, sep);
      assert Split(s, sep) == [[s[0]] + r[0]] + r[1..];
      assert [w[0]] + w[1..] == w;
    }
  }

  /** The second field of a split is the text after the first separator, up
      to the next separator or the end. */
  lemma SecondField(s: string, sep: char)
    requires |Split(s, sep)| >= 2
    ensures var start := |Split(s, sep)[0]| + 1; var f := Split(s, sep)[1];
      && start <= |s| && s[start - 1] == sep
      && sep !in f
      && start + |f| <= |s|
      && s[start..start + |f|] == f
      && (start + |f| < |s| ==> s[start + |f|] == sep)
  {
    var first := Split(s, sep)[0];
    var rest := s[|first| + 1..];
    assert s == first + [sep] + rest;
    SplitAfterWord(first, rest, sep);
    FieldAfterSeparator(s, |first| + 1, rest, Split(rest, sep)[0], sep);
  }

  /** A field read from the front of the suffix `rest == s[k..]` sits in `s`
      at offset `k`. */
  lemma FieldAfterSeparator(s: string, k: nat, rest: string, f: string, sep: char)
    requires 1 <= k <= |s| && s[k - 1] == sep && rest == s[k..]
    requires f == Split(rest, sep)[0]
    ensures sep !in f && k + |f| <= |s| && s[k..k + |f|] == f
    ensures k + |f| < |s| ==> s[k + |f|] == sep
  {
    assert |f| <= |rest| && f == rest[..|f|];
    assert rest[..|f|] == s[k..k + |f|];
    if k + |f| < |s| {
      assert rest[|f|] == s[k + |f|];
    }
  }

  /** `authHeader.split(" ")[1]`, or `None` when there is no such field:
      the text after the first space, up to the next space or the end. */
  function TokenOf(header: string): (token: Option<string>)
    ensures token.Some? <==> ' ' in header
    ensures token.Some? ==>
      var start := |Split(header, ' ')[0]| + 1;
      && start <= |header| && header[start - 1] == ' '
      && ' ' !in token.value
      && start + |token.value| <= |header|
      && header[start..start + |token.value|] == token.value
      && (start + |token.value| < |header| ==> header[start + |token.value|] == ' ')
  {
    var fields := Split(header, ' ');
    if |fields| >= 2 then
      SecondField(header, ' ');
      Some(fields[1])
    else None
  }

  /** `jwt.verify` gave claims or threw, `jwt.decode` gave claims or null. */
  function Authenticate(header: Option<string>,
                        verify: (string, string) -> Option<Claims>,
                        decode: string -> Option<Claims>): (o: Outcome)
    ensures o == Unauthorized <==> header.None? || !StartsWith(header.value, BearerPrefix)
    ensures o == ServerError ==>
      exists t :: TokenOf(header.value) == Some(t) && t != "" && |t| < CustomTokenLimit &&
        verify(t, Secret).None?
  {
    if header.None? || !StartsWith(header.value, BearerPrefix) then Unauthorized
    else
      BearerTokenExists(header.value);
      var token := TokenOf(header.value).value;
      if token != "" && |token| < CustomTokenLimit then
        match verify(token, Secret)
        case None => ServerError
        case Some(claims) => Proceed(claims.id)
      else
        match decode(token)
        case None => Proceed(None)
        case Some(claims) => Proceed(claims.sub)
  }

  /** After "Bearer " the token is the text up to the next space: the rest
      of the header is ignored. */
  lemma BearerTokenIsFirstFieldOfRest(rest: string)
    ensures TokenOf(BearerPrefix + rest) == Some(Split(rest, ' ')[0])
  {
    assert BearerPrefix + rest == "Bearer" + [' '] + rest;
    SplitAfterWord("Bearer", rest, ' ');
  }

  /** A header that starts with "Bearer " always has a token field. */
  lemma BearerTokenExists(header: string)
    requires StartsWith(header, BearerPrefix)
    ensures TokenOf(header).Some?
  {
    assert header == BearerPrefix + header[|BearerPrefix|..];
    BearerTokenIsFirstFieldOfRest(header[|BearerPrefix|..]);
  }

  /** A non-empty token shorter than 500 characters is verified with the
      fixed secret; the request proceeds with its `id` claim, or fails with
      500 when verification throws. */
  lemma ShortTokenIsVerified(rest: string, verify: (string, string) -> Option<Claims>,
                             decode: string -> Option<Claims>)
    requires var t := Split(rest, ' ')[0]; t != "" && |t| < CustomTokenLimit
    ensures var t := Split(rest, ' ')[0];
      Authenticate(Some(BearerPrefix + rest), verify, decode) ==
        if verify(t, Secret).None? then ServerError else Proceed(verify(t, Secret).value.id)
  {
    BearerTokenIsFirstFieldOfRest(rest);
  }

  /** An empty token or one of 500 characters or more is only decoded, without
      any signature check: the request always proceeds, with the `sub` claim,
      or with no user id when nothing could be decoded. */
  lemma LongOrEmptyTokenIsOnlyDecoded(rest: string, verify: (string, string) -> Option<Claims>,
                                      decode: string -> Option<Claims>)
    requires var t := Split(rest, ' ')[0]; t == "" || |t| >= CustomTokenLimit
    ensures var t := Split(rest, ' ')[0];
      Authenticate(Some(BearerPrefix + rest), verify, decode) ==
        Proceed(if decode(t).None? then None else decode(t).value.sub)
  {
    BearerTokenIsFirstFieldOfRest(rest);
  }

  /** The header "Bearer " carries the empty token, which is only decoded;
      as `jwt.decode` gives `null` for the empty string, the request
      proceeds with no user id instead of being rejected. */
  lemma EmptyBearerProceedsWithoutUser(verify: (string, string) -> Option<Claims>,
                                       decode: string -> Option<Claims>)
    requires decode("").None?
    ensures Authenticate(Some("Bearer "), verify, decode) == Proceed(None)
  {
    DoubleSpaceGivesEmptyToken();
  }

  /** "Bearer  x" (two spaces) carries the empty token, and "Bearer " alone
      does too: both reach the decode-only branch and proceed. */
  lemma DoubleSpaceGivesEmptyToken()
    ensures TokenOf("Bearer  x") == Some("")
    ensures TokenOf("Bearer ") == Some("")
  {
    BearerTokenIsFirstFieldOfRest(" x");
    BearerTokenIsFirstFieldOfRest("");
    assert BearerPrefix + " x" == "Bearer  x";
    assert BearerPrefix + "" == "Bearer ";
  }
}
