/** The JSON envelope the server answers with (server/pkg/lib/response/response.go):
    a status, an optional error text and optional data, built from domain
    records, tokens, plain errors and validation failures. */
module Response {
  import opened Optional
  import opened Text

  const StatusOK: string := "success"
  const StatusError: string := "error"
  const InvalidServerError: string := "invalid server error"

  /** A timestamp; only copied, never inspected. */
  type Time = int

  datatype ActorDto = ActorDto(actorId: nat, name: string, wikiUrl: string, avatarUrl: Option<string>, createdAt: Time)
  datatype GenreDto = GenreDto(genreId: nat, name: string, createAt: Time)
  datatype ReviewDto = ReviewDto(reviewId: nat, userId: nat, filmId: nat, rating: int, reviewText: string, createdAt: Time)
  datatype UserProfileDto = UserProfileDto(email: Option<string>, login: Option<string>, avatarUrl: Option<string>)

  /** The JSON records; a Go pointer field is an `Option`. */
  datatype ActorData = ActorData(id: nat, name: Option<string>, wikiUrl: Option<string>, avatarUrl: Option<string>, createdAt: Option<Time>)
  datatype GenreData = GenreData(id: nat, name: Option<string>, createdAt: Option<Time>)
  datatype ReviewData = ReviewData(reviewId: nat, userId: nat, filmId: nat, rating: int, reviewText: string, createdAt: Option<Time>)

  datatype Data =
    | NoData
    | ProfileData(email: Option<string>, login: Option<string>, avatarUrl: Option<string>)
    | TokenData(accessToken: string)
    | ActorRecord(actor: ActorData)
    | ActorList(actors: seq<ActorData>)
    | GenreRecord(genre: GenreData)
    | GenreList(genres: seq<GenreData>)
    | ReviewRecord(review: ReviewData)
    | ReviewList(reviews: seq<ReviewData>)

  /** `Response{Status, Error, Data}`; "" is an absent error. */
  datatype Response = Response(status: string, error: string, data: Data)

  /** The dynamic type of the `interface{}` argument of `Actors`, `Genres`
      and `Reviews`: one record, a slice of records, or anything else. */
  datatype Payload<T> = Single(item: T) | Many(items: seq<T>) | Other

  function ActorView(dto: ActorDto): (d: ActorData)
    ensures d.id == dto.actorId && d.avatarUrl == dto.avatarUrl
    ensures d.name == Some(dto.name) && d.wikiUrl == Some(dto.wikiUrl) && d.createdAt == Some(dto.createdAt)
  {
    ActorData(dto.actorId, Some(dto.name), Some(dto.wikiUrl), dto.avatarUrl, Some(dto.createdAt))
  }

  function GenreView(dto: GenreDto): (d: GenreData)
    ensures d.id == dto.genreId && d.name == Some(dto.name) && d.createdAt == Some(dto.createAt)
  {
    GenreData(dto.genreId, Some(dto.name), Some(dto.createAt))
  }

  function ReviewView(dto: ReviewDto): (d: ReviewData)
    ensures d.reviewId == dto.reviewId && d.userId == dto.userId && d.filmId == dto.filmId
    ensures d.rating == dto.rating && d.reviewText == dto.reviewText && d.createdAt == Some(dto.createdAt)
  {
    ReviewData(dto.reviewId, dto.userId, dto.filmId, dto.rating, dto.reviewText, Some(dto.createdAt))
  }

  /** The `for ... range` loop with `append`: one converted record per input,
      in input order (an empty input stays empty, Go's nil slice). */
  method ConvertAll<D, V>(items: seq<D>, view: D -> V) returns (out: seq<V>)
    ensures |out| == |items|
    ensures forall i :: 0 <= i < |items| ==> out[i] == view(items[i])
  {
    out := [];
    var n := 0;
    while n < |items|
      invariant 0 <= n <= |items|
      invariant |out| == n
      invariant forall i :: 0 <= i < n ==> out[i] == view(items[i])
    {
      out := out + [view(items[n])];
      n := n + 1;
    }
  }

  /** `Actors` (lines 57-91). */
  method Actors(input: Payload<ActorDto>) returns (r: Response)
    ensures input.Single? ==> r == Response(StatusOK, "", ActorRecord(ActorView(input.item)))
    ensures input.Many? ==>
              && r.status == StatusOK && r.error == "" && r.data.ActorList?
              && |r.data.actors| == |input.items|
              && forall i :: 0 <= i < |input.items| ==> r.data.actors[i] == ActorView(input.items[i])
    ensures input.Other? ==> r == Response(StatusError, InvalidServerError, NoData)
  {
    match input {
      case Single(dto) =>
        r := Response(StatusOK, "", ActorRecord(ActorView(dto)));
      case Many(dtos) =>
        var actors := ConvertAll(dtos, ActorView);
        r := Response(StatusOK, "", ActorList(actors));
      case Other =>
        r := Response(StatusError, InvalidServerError, NoData);
    }
  }

  /** `Genres` (lines 99-129). */
  method Genres(input: Payload<GenreDto>) returns (r: Response)
    ensures input.Single? ==> r == Response(StatusOK, "", GenreRecord(GenreView(input.item)))
    ensures input.Many? ==>
              && r.status == StatusOK && r.error == "" && r.data.GenreList?
              && |r.data.genres| == |input.items|
              && forall i :: 0 <= i < |input.items| ==> r.data.genres[i] == GenreView(input.items[i])
    ensures input.Other? ==> r == Response(StatusError, InvalidServerError, NoData)
  {
    match input {
      case Single(dto) =>
        r := Response(StatusOK, "", GenreRecord(GenreView(dto)));
      case Many(dtos) =>
        var genres := ConvertAll(dtos, GenreView);
        r := Response(StatusOK, "", GenreList(genres));
      case Other =>
        r := Response(StatusError, InvalidServerError, NoData);
    }
  }

  /** `Reviews` (lines 140-176). */
  method Reviews(input: Payload<ReviewDto>) returns (r: Response)
    ensures input.Single? ==> r == Response(StatusOK, "", ReviewRecord(ReviewView(input.item)))
    ensures input.Many? ==>
              && r.status == StatusOK && r.error == "" && r.data.ReviewList?
              && |r.data.reviews| == |input.items|
              && forall i :: 0 <= i < |input.items| ==> r.data.reviews[i] == ReviewView(input.items[i])
    ensures input.Other? ==> r == Response(StatusError, InvalidServerError, NoData)
  {
    match input {
      case Single(dto) =>
        r := Response(StatusOK, "", ReviewRecord(ReviewView(dto)));
      case Many(dtos) =>
        var reviews := ConvertAll(dtos, ReviewView);
        r := Response(StatusOK, "", ReviewList(reviews));
      case Other =>
        r := Response(StatusError, InvalidServerError, NoData);
    }
  }

  /** `UserProfile` (lines 38-47): a success carrying the profile's three
      fields unchanged. */
  function UserProfile(user: UserProfileDto): (r: Response)
    ensures r.status == StatusOK && r.error == "" && r.data.ProfileData?
    ensures r.data.email == user.email && r.data.login == user.login && r.data.avatarUrl == user.avatarUrl
  {
    Response(StatusOK, "", ProfileData(user.email, user.login, user.avatarUrl))
  }

  /** `AccessToken` (lines 178-185): a success with no error carrying the
      token. */
  function AccessToken(token: string): (r: Response)
    ensures r.status == StatusOK && r.error == "" && r.data == TokenData(token)
  {
    Response(StatusOK, "", TokenData(token))
  }

  /** `OK` (lines 187-191): a bare success. */
  function OK(): (r: Response)
    ensures r.status == StatusOK && r.error == "" && r.data == NoData
  {
    Response(StatusOK, "", NoData)
  }

  /** `Error` (lines 193-198): a failure carrying exactly the given text. */
  function Error(message: string): (r: Response)
    ensures r.status == StatusError && r.error == message && r.data == NoData
  {
    Response(StatusError, message, NoData)
  }

  /** One failed validation rule: the field's name and the rule's tag. */
  datatype FieldError = FieldError(field: string, tag: string)

  /** The error handed to `ValidationError`: a validator error list (the
      `errors.As` case), or any other error with its `Error()` text. */
  datatype Failure = Validation(errors: seq<FieldError>) | Plain(text: string)

  datatype TagClass = Required | EmailTag | LoginTag | OtherTag

  /** The `switch` on the rule's tag (lines 206-215). */
  function ClassOf(tag: string): (c: TagClass)
    ensures c == Required <==> tag == "required"
    ensures c == EmailTag <==> tag == "email"
    ensures c == LoginTag <==> tag == "login"
  {
    if tag == "required" then Required
    else if tag == "email" then EmailTag
    else if tag == "login" then LoginTag
    else OtherTag
  }

  /** What follows the field name in a message. */
  function Complaint(c: TagClass): (r: string)
    ensures |r| >= 20 && r[0] == ' '
  {
    match c
    case Required => " is a required field"
    case EmailTag => " is not a valid Email"
    case LoginTag => " is not a valid Login"
    case OtherTag => " has an invalid value"
  }

  /** Different kinds of rule have different complaints. */
  lemma ComplaintInjective(a: TagClass, b: TagClass)
    requires Complaint(a) == Complaint(b)
    ensures a == b
  {
    var x, y := Complaint(a), Complaint(b);
    // lengths set Required apart; the second letter sets OtherTag apart;
    // the letter after "valid " separates the other two
    assert |x| == |y| && x[1] == y[1] && x[16] == y[16];
  }

  /** The message for one failed rule (lines 206-215). */
  function FieldMessage(e: FieldError): (m: string)
    ensures m == "field " + e.field + Complaint(ClassOf(e.tag))
    ensures StartsWith(m, "field " + e.field)
    ensures |m| == 6 + |e.field| + |Complaint(ClassOf(e.tag))|
  {
    var m := "field " + e.field + Complaint(ClassOf(e.tag));
    assert m[..6 + |e.field|] == "field " + e.field;
    m
  }

  /** The four messages, by tag: the required, email and login rules have
      their own texts; every other tag gets the generic one. */
  lemma FieldMessageTexts(e: FieldError)
    ensures e.tag == "required" ==> FieldMessage(e) == "field " + e.field + " is a required field"
    ensures e.tag == "email" ==> FieldMessage(e) == "field " + e.field + " is not a valid Email"
    ensures e.tag == "login" ==> FieldMessage(e) == "field " + e.field + " is not a valid Login"
    ensures e.tag !in {"required", "email", "login"} ==> FieldMessage(e) == "field " + e.field + " has an invalid value"
  {}

  /** A message names its field and its kind of rule unambiguously: equal
      messages come from the same field and the same kind of rule. */
  lemma FieldMessageInjective(e1: FieldError, e2: FieldError)
    requires FieldMessage(e1) == FieldMessage(e2)
    ensures e1.field == e2.field && ClassOf(e1.tag) == ClassOf(e2.tag)
  {
    var c1, c2 := Complaint(ClassOf(e1.tag)), Complaint(ClassOf(e2.tag));
    var m := FieldMessage(e1);
    assert m == "field " + e1.field + c1 == "field " + e2.field + c2;
    assert m[6 + |e1.field|..] == c1;
    assert m[6 + |e2.field|..] == c2;
    ComplaintsAgree(ClassOf(e1.tag), ClassOf(e2.tag), m);
    assert m[6..6 + |e1.field|] == e1.field;
    assert m[6..6 + |e2.field|] == e2.field;
  }

  /** Two complaints that both end the same message are the same. */
  lemma ComplaintsAgree(a: TagClass, b: TagClass, m: string)
    requires |Complaint(a)| <= |m| && m[|m| - |Complaint(a)|..] == Complaint(a)
    requires |Complaint(b)| <= |m| && m[|m| - |Complaint(b)|..] == Complaint(b)
    ensures a == b
  {
    var x, y := Complaint(a), Complaint(b);
    // twenty characters from the end: the blank opening the one 20-letter
    // complaint, a letter in the longer ones
    assert x[|x| - 20] == m[|m| - 20] == y[|y| - 20];
    assert |x| == |y|;
    assert x == m[|m| - |x|..] == y;
    ComplaintInjective(a, b);
  }

  /** The messages of a validator error list, in input order. */
  function Messages(errors: seq<FieldError>): (ms: seq<string>)
    ensures |ms| == |errors|
    ensures forall i :: 0 <= i < |errors| ==> ms[i] == FieldMessage(errors[i])
  {
    seq(|errors|, i requires 0 <= i < |errors| => FieldMessage(errors[i]))
  }

  /** `ValidationError` (lines 200-225): always a failure; for a validator
      error list, one message per failed rule in input order joined by ", ";
      for any other error, exactly its text. */
  method ValidationError(err: Failure) returns (r: Response)
    ensures r.status == StatusError && r.data == NoData
    ensures err.Validation? ==> r.error == Join(Messages(err.errors), ", ")
    ensures err.Plain? ==> r.error == err.text
  {
    var messages: seq<string> := [];
    match err {
      case Validation(errors) =>
        var n := 0;
        while n < |errors|
          invariant 0 <= n <= |errors|
          invariant messages == Messages(errors[..n])
        {
          assert errors[..n + 1] == errors[..n] + [errors[n]];
          messages := messages + [FieldMessage(errors[n])];
          n := n + 1;
        }
        assert errors[..n] == errors;
      case Plain(text) =>
        messages := messages + [text];
    }
    r := Response(StatusError, Join(messages, ", "), NoData);
  }

  /** One failed rule gives just its message; none gives an empty error
      text. */
  lemma ValidationMessageCount(errors: seq<FieldError>)
    ensures |errors| == 0 ==> Join(Messages(errors), ", ") == ""
    ensures |errors| == 1 ==> Join(Messages(errors), ", ") == FieldMessage(errors[0])
    ensures |errors| > 1 ==>
              Join(Messages(errors), ", ")
                == Join(Messages(errors[..|errors| - 1]), ", ") + ", " + FieldMessage(errors[|errors| - 1])
  {
    if |errors| > 1 {
      var ms := Messages(errors);
      assert ms[..|ms| - 1] == Messages(errors[..|errors| - 1]);
    }
  }
}
