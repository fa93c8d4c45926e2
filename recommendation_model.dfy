/** The `Book` record recommendations are made of, with pydantic's validation of it. */
module RecommendationModel {
  import opened Wrappers
  import opened PyRuntime
  import SentimentModel

  /** Three required text fields and three optional ones, which default to `None`. */
  datatype Book = Book(
    title: string,
    author: string,
    genre: string,
    description: Option<string>,
    publicationYear: Option<int>,
    rating: Option<real>)

  /** An optional field: missing or `null` gives `None`. */
  function OptionalStr(v: Json): Result<Option<string>, bool> {
    match v
    case JNull => Success(None)
    case JStr(s) => Success(Some(s))
    case _ => Failure(false)
  }

  function OptionalInt(v: Json): Result<Option<int>, bool> {
    match v
    case JNull => Success(None)
    case JInt(i) => Success(Some(i))
    case _ => Failure(false)
  }

  function OptionalFloat(v: Json): Result<Option<real>, bool> {
    if v.JNull? then Success(None)
    else match SentimentModel.AsFloat(v)
      case Some(f) => Success(Some(f))
      case None => Failure(false)
  }

  /**
   * `Book.model_validate(v)`: `title`, `author` and `genre` must be strings;
   * `description`, `publication_year` and `rating` may be absent or null; the
   * rating is any number, with no range check.
   */
  function ValidateBook(v: Json): (r: Result<Book, PyError>)
    ensures r.Success? ==> v.JObject?
    ensures r.Success? ==> DictGet(v.members, "title") == JStr(r.value.title)
    ensures r.Success? ==> DictGet(v.members, "author") == JStr(r.value.author)
    ensures r.Success? ==> DictGet(v.members, "genre") == JStr(r.value.genre)
    ensures r.Success? ==> (r.value.description.None? <==> DictGet(v.members, "description") == JNull)
    ensures r.Success? && r.value.description.Some? ==> DictGet(v.members, "description") == JStr(r.value.description.value)
    ensures r.Success? ==> (r.value.publicationYear.None? <==> DictGet(v.members, "publication_year") == JNull)
    ensures r.Success? && r.value.publicationYear.Some? ==> DictGet(v.members, "publication_year") == JInt(r.value.publicationYear.value)
    ensures r.Success? ==> (r.value.rating.None? <==> DictGet(v.members, "rating") == JNull)
    ensures r.Success? && r.value.rating.Some? ==> SentimentModel.AsFloat(DictGet(v.members, "rating")) == r.value.rating
    ensures r.Failure? ==> r.error.ValidationError? && r.error.model == "Book"
  {
    if !v.JObject? then Failure(ValidationError("Book", [""]))
    else
      var ms := v.members;
      var title, author, genre := DictGet(ms, "title"), DictGet(ms, "author"), DictGet(ms, "genre");
      var description := OptionalStr(DictGet(ms, "description"));
      var year := OptionalInt(DictGet(ms, "publication_year"));
      var rating := OptionalFloat(DictGet(ms, "rating"));
      if title.JStr? && author.JStr? && genre.JStr? && description.Success? && year.Success? && rating.Success? then
        Success(Book(title.s, author.s, genre.s, description.value, year.value, rating.value))
      else
        Failure(ValidationError("Book", FailingFields([
          ("title", title.JStr?), ("author", author.JStr?), ("genre", genre.JStr?),
          ("description", description.Success?), ("publication_year", year.Success?), ("rating", rating.Success?)])))
  }

  /**
   * Which dicts make a book: the three required fields are strings, the
   * description is null or a string, the year null or an integer and the rating
   * null or a number; any field may also be absent, which reads as null.
   */
  lemma ValidateBookIff(v: Json)
    requires v.JObject?
    ensures var ms := v.members;
      var d, y, rt := DictGet(ms, "description"), DictGet(ms, "publication_year"), DictGet(ms, "rating");
      ValidateBook(v).Success? <==>
        && DictGet(ms, "title").JStr? && DictGet(ms, "author").JStr? && DictGet(ms, "genre").JStr?
        && (d.JNull? || d.JStr?) && (y.JNull? || y.JInt?) && (rt.JNull? || rt.JInt? || rt.JFloat?)
  {
  }

  /** A book given only its three required fields is accepted, with the optional ones `None`. */
  lemma RequiredFieldsSuffice(title: string, author: string, genre: string)
    ensures ValidateBook(JObject([("title", JStr(title)), ("author", JStr(author)), ("genre", JStr(genre))]))
      == Success(Book(title, author, genre, None, None, None))
  {
    var ms := [("title", JStr(title)), ("author", JStr(author)), ("genre", JStr(genre))];
    DictGetAt(ms, "title", 0);
    DictGetAt(ms, "author", 1);
    assert !HasKey(ms, "description") && !HasKey(ms, "publication_year") && !HasKey(ms, "rating");
  }

  /** Dropping the title makes the book invalid. */
  lemma TitleRequired(author: string, genre: string)
    ensures ValidateBook(JObject([("author", JStr(author)), ("genre", JStr(genre))])).Failure?
  {
    assert !HasKey([("author", JStr(author)), ("genre", JStr(genre))], "title");
  }

  /** Any rating, 7.5 or -3.0 as much as 4.5, beyond the documented "out of 5", is accepted as it is. */
  lemma RatingUnbounded(title: string, author: string, genre: string, rating: real)
    ensures ValidateBook(JObject([("title", JStr(title)), ("author", JStr(author)), ("genre", JStr(genre)), ("rating", JFloat(rating))]))
      == Success(Book(title, author, genre, None, None, Some(rating)))
  {
    var ms := [("title", JStr(title)), ("author", JStr(author)), ("genre", JStr(genre)), ("rating", JFloat(rating))];
    DictGetAt(ms, "title", 0);
    DictGetAt(ms, "author", 1);
    DictGetAt(ms, "genre", 2);
    DictGetAt(ms, "rating", 3);
    assert !HasKey(ms, "description") && !HasKey(ms, "publication_year");
    assert OptionalFloat(DictGet(ms, "rating")) == Success(Some(rating));
    ValidateBookIff(JObject(ms));
  }
}
