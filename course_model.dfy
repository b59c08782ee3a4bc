/**
 * The course schema and its sub-schemas (review, link, comment, course
 * data) as a document normaliser: required paths are checked, defaults are
 * filled in, and arrays that are absent become empty.
 */
module CourseModel {
  import opened Wrappers
  import opened JsText

  /** `{ public_id, url }`. */
  datatype Thumbnail = Thumbnail(publicId: Option<string>, url: Option<string>)

  /** An entry of `benefits` or `prerequisites`: `{ title }`. */
  datatype Titled = Titled(title: Option<string>)

  /** `linkSchema`: `{ title, url }`. */
  datatype Link = Link(title: Option<string>, url: Option<string>)

  /**
   * A review as given. `user` (an arbitrary object in the schema) is kept as
   * its serialised text.
   */
  datatype ReviewInput = ReviewInput(user: Option<string>, rating: Option<real>, comment: Option<string>)

  /** A stored review: `rating` defaults to 0. */
  datatype Review = Review(user: Option<string>, rating: real, comment: Option<string>)

  /** A comment as given; `commentReplies` elements are kept as serialised text. */
  datatype CommentInput = CommentInput(user: Option<string>, comment: Option<string>, commentReplies: Option<seq<string>>)

  /** A stored comment: an absent `commentReplies` array is empty. */
  datatype Comment = Comment(user: Option<string>, comment: Option<string>, commentReplies: seq<string>)

  /** A course-data entry as given. */
  datatype CourseDataInput = CourseDataInput(
    videoUrl: Option<string>,
    title: Option<string>,
    description: Option<string>,
    videoSection: Option<string>,
    videoLength: Option<real>,
    videoPlayer: Option<string>,
    links: Option<seq<Link>>,
    suggestions: Option<string>,
    questions: Option<seq<CommentInput>>)

  /** A stored course-data entry: absent `links` and `questions` are empty. */
  datatype CourseData = CourseData(
    videoUrl: Option<string>,
    title: Option<string>,
    description: Option<string>,
    videoSection: Option<string>,
    videoLength: Option<real>,
    videoPlayer: Option<string>,
    links: seq<Link>,
    suggestions: Option<string>,
    questions: seq<Comment>)

  /** The fields of a course document as given; any of them may be absent. */
  datatype CourseInput = CourseInput(
    name: Option<string>,
    description: Option<string>,
    price: Option<real>,
    estimatedPrice: Option<real>,
    thumbnail: Option<Thumbnail>,
    tags: Option<string>,
    level: Option<string>,
    demoUrl: Option<string>,
    benefits: Option<seq<Titled>>,
    prerequisites: Option<seq<Titled>>,
    reviews: Option<seq<ReviewInput>>,
    courseData: Option<seq<CourseDataInput>>,
    ratings: Option<real>,
    purchased: Option<real>)

  /** A course document that passed validation, with every default in place. */
  datatype Course = Course(
    name: string,
    description: string,
    price: real,
    estimatedPrice: real,
    thumbnail: Option<Thumbnail>,
    tags: string,
    level: string,
    demoUrl: string,
    benefits: seq<Titled>,
    prerequisites: seq<Titled>,
    reviews: seq<Review>,
    courseData: seq<CourseData>,
    ratings: real,
    purchased: real)

  /** A failed `required` validator: the path and Mongoose's default message. */
  datatype RequiredError = RequiredError(path: string, message: string)

  function RequiredMessage(path: string): string {
    "Path `" + path + "` is required."
  }

  /** The required paths, in schema order. */
  const RequiredPaths: seq<string> := ["name", "description", "price", "tags", "level", "demoUrl"]

  /** Whether the required path `path` is missing from `c`. */
  predicate Missing(c: CourseInput, path: string) {
    match path
    case "name" => !PresentString(c.name)
    case "description" => !PresentString(c.description)
    case "price" => c.price.None?
    case "tags" => !PresentString(c.tags)
    case "level" => !PresentString(c.level)
    case "demoUrl" => !PresentString(c.demoUrl)
    case _ => false
  }

  /** One error per missing required path, in schema order. */
  function RequiredErrors(c: CourseInput, paths: seq<string>): (errs: seq<RequiredError>)
    requires forall i, j :: 0 <= i < j < |paths| ==> paths[i] != paths[j]
    ensures forall e :: e in errs ==> e.path in paths && Missing(c, e.path) && e.message == RequiredMessage(e.path)
    ensures forall p :: p in paths && Missing(c, p) ==> RequiredError(p, RequiredMessage(p)) in errs
    ensures forall i, j :: 0 <= i < j < |errs| ==> errs[i].path != errs[j].path
  {
    if paths == [] then []
    else
      var rest := RequiredErrors(c, paths[1..]);
      if Missing(c, paths[0]) then [RequiredError(paths[0], RequiredMessage(paths[0]))] + rest else rest
  }

  function NormalizeReview(r: ReviewInput): Review {
    Review(r.user, r.rating.GetOr(0.0), r.comment)
  }

  function NormalizeComment(c: CommentInput): Comment {
    Comment(c.user, c.comment, c.commentReplies.GetOr([]))
  }

  function NormalizeCourseData(d: CourseDataInput): CourseData {
    CourseData(d.videoUrl, d.title, d.description, d.videoSection, d.videoLength, d.videoPlayer,
               d.links.GetOr([]), d.suggestions, MapComments(d.questions.GetOr([])))
  }

  function MapReviews(rs: seq<ReviewInput>): (out: seq<Review>)
    ensures |out| == |rs| && forall i :: 0 <= i < |rs| ==> out[i] == NormalizeReview(rs[i])
  {
    seq(|rs|, i requires 0 <= i < |rs| => NormalizeReview(rs[i]))
  }

  function MapComments(cs: seq<CommentInput>): (out: seq<Comment>)
    ensures |out| == |cs| && forall i :: 0 <= i < |cs| ==> out[i] == NormalizeComment(cs[i])
  {
    seq(|cs|, i requires 0 <= i < |cs| => NormalizeComment(cs[i]))
  }

  function MapCourseData(ds: seq<CourseDataInput>): (out: seq<CourseData>)
    ensures |out| == |ds| && forall i :: 0 <= i < |ds| ==> out[i] == NormalizeCourseData(ds[i])
  {
    seq(|ds|, i requires 0 <= i < |ds| => NormalizeCourseData(ds[i]))
  }

  /**
   * Building and validating a course document: every missing required path
   * is reported; otherwise the document gets its defaults (prices, ratings
   * and purchase count 0; arrays empty; review ratings 0).
   */
  function ValidateCourse(c: CourseInput): (r: Result<Course, seq<RequiredError>>)
    ensures r.Success? <==> forall p :: p in RequiredPaths ==> !Missing(c, p)
    ensures r.Failure? ==>
      r.error != [] && forall p :: p in RequiredPaths ==> (Missing(c, p) <==> RequiredError(p, RequiredMessage(p)) in r.error)
    ensures r.Failure? ==>
      forall e :: e in r.error ==> e.path in RequiredPaths && Missing(c, e.path) && e.message == RequiredMessage(e.path)
    ensures r.Failure? ==> forall i, j :: 0 <= i < j < |r.error| ==> r.error[i].path != r.error[j].path
  {
    var errs := RequiredErrors(c, RequiredPaths);
    if errs != [] then
      assert errs[0] in errs;
      Failure(errs)
    else
      assert !Missing(c, RequiredPaths[0]) && !Missing(c, RequiredPaths[1]) && !Missing(c, RequiredPaths[2]);
      assert !Missing(c, RequiredPaths[3]) && !Missing(c, RequiredPaths[4]) && !Missing(c, RequiredPaths[5]);
      Success(Course(
        c.name.value, c.description.value, c.price.value, c.estimatedPrice.GetOr(0.0), c.thumbnail,
        c.tags.value, c.level.value, c.demoUrl.value,
        c.benefits.GetOr([]), c.prerequisites.GetOr([]),
        MapReviews(c.reviews.GetOr([])), MapCourseData(c.courseData.GetOr([])),
        c.ratings.GetOr(0.0), c.purchased.GetOr(0.0)))
  }

  /**
   * A course is accepted exactly when none of name, description, price,
   * tags, level and demoUrl is missing; an empty string counts as missing.
   */
  lemma RequiredPathsDecide(c: CourseInput)
    ensures ValidateCourse(c).Success? <==>
      PresentString(c.name) && PresentString(c.description) && c.price.Some?
      && PresentString(c.tags) && PresentString(c.level) && PresentString(c.demoUrl)
  {
    assert Missing(c, RequiredPaths[0]) == !PresentString(c.name);
    assert Missing(c, RequiredPaths[1]) == !PresentString(c.description);
    assert Missing(c, RequiredPaths[2]) == c.price.None?;
    assert Missing(c, RequiredPaths[3]) == !PresentString(c.tags);
    assert Missing(c, RequiredPaths[4]) == !PresentString(c.level);
    assert Missing(c, RequiredPaths[5]) == !PresentString(c.demoUrl);
  }

  /**
   * A valid course keeps every given value and fills each absent one with
   * its default.
   */
  lemma CourseDefaults(c: CourseInput)
    requires ValidateCourse(c).Success?
    ensures c.name.Some? && c.description.Some? && c.price.Some?
    ensures c.tags.Some? && c.level.Some? && c.demoUrl.Some?
    ensures var v := ValidateCourse(c).value;
      v.name == c.name.value && v.description == c.description.value && v.price == c.price.value
      && v.tags == c.tags.value && v.level == c.level.value && v.demoUrl == c.demoUrl.value
      && (c.benefits.Some? ==> v.benefits == c.benefits.value)
      && (c.prerequisites.Some? ==> v.prerequisites == c.prerequisites.value)
      && (c.reviews.Some? ==> v.reviews == MapReviews(c.reviews.value))
      && (c.courseData.Some? ==> v.courseData == MapCourseData(c.courseData.value))
      && (c.estimatedPrice.None? ==> v.estimatedPrice == 0.0) && (c.estimatedPrice.Some? ==> v.estimatedPrice == c.estimatedPrice.value)
      && (c.ratings.None? ==> v.ratings == 0.0) && (c.ratings.Some? ==> v.ratings == c.ratings.value)
      && (c.purchased.None? ==> v.purchased == 0.0) && (c.purchased.Some? ==> v.purchased == c.purchased.value)
      && (c.reviews.None? ==> v.reviews == []) && (c.courseData.None? ==> v.courseData == [])
      && (c.benefits.None? ==> v.benefits == []) && (c.prerequisites.None? ==> v.prerequisites == [])
      && v.thumbnail == c.thumbnail
  {
    RequiredPathsDecide(c);
  }

  /** Each review keeps its rating, or gets 0 when it has none. */
  lemma ReviewRatingDefault(c: CourseInput, i: int)
    requires ValidateCourse(c).Success? && c.reviews.Some? && 0 <= i < |c.reviews.value|
    ensures var v := ValidateCourse(c).value;
      |v.reviews| == |c.reviews.value|
      && v.reviews[i].rating == (if c.reviews.value[i].rating.Some? then c.reviews.value[i].rating.value else 0.0)
  {
  }

  /** Only the six required paths can make a course invalid; the optional ones never do. */
  lemma OptionalPathsNeverRefuse(c: CourseInput, thumbnail: Option<Thumbnail>, benefits: Option<seq<Titled>>,
                                 prerequisites: Option<seq<Titled>>, reviews: Option<seq<ReviewInput>>,
                                 courseData: Option<seq<CourseDataInput>>)
    ensures ValidateCourse(c).Success?
        == ValidateCourse(c.(thumbnail := thumbnail, benefits := benefits, prerequisites := prerequisites,
                            reviews := reviews, courseData := courseData)).Success?
  {
    var d := c.(thumbnail := thumbnail, benefits := benefits, prerequisites := prerequisites,
                reviews := reviews, courseData := courseData);
    assert forall p :: Missing(c, p) == Missing(d, p);
  }

  // ---------------------------------------------------------------------------
  // Round trip: a stored course, given back as input, normalises to itself
  // ---------------------------------------------------------------------------

  function ReviewAsInput(r: Review): ReviewInput {
    ReviewInput(r.user, Some(r.rating), r.comment)
  }

  function CommentAsInput(c: Comment): CommentInput {
    CommentInput(c.user, c.comment, Some(c.commentReplies))
  }

  function CourseDataAsInput(d: CourseData): CourseDataInput {
    CourseDataInput(d.videoUrl, d.title, d.description, d.videoSection, d.videoLength, d.videoPlayer,
                    Some(d.links), d.suggestions, Some(seq(|d.questions|, i requires 0 <= i < |d.questions| => CommentAsInput(d.questions[i]))))
  }

  /** A stored course written back as input, every path given. */
  function CourseAsInput(v: Course): CourseInput {
    CourseInput(Some(v.name), Some(v.description), Some(v.price), Some(v.estimatedPrice), v.thumbnail,
                Some(v.tags), Some(v.level), Some(v.demoUrl), Some(v.benefits), Some(v.prerequisites),
                Some(seq(|v.reviews|, i requires 0 <= i < |v.reviews| => ReviewAsInput(v.reviews[i]))),
                Some(seq(|v.courseData|, i requires 0 <= i < |v.courseData| => CourseDataAsInput(v.courseData[i]))),
                Some(v.ratings), Some(v.purchased))
  }

  /** The required strings of a stored course are non-empty. */
  predicate Storable(v: Course) {
    v.name != "" && v.description != "" && v.tags != "" && v.level != "" && v.demoUrl != ""
  }

  lemma CourseDataRoundTrip(d: CourseData)
    ensures NormalizeCourseData(CourseDataAsInput(d)) == d
  {
    var qs := CourseDataAsInput(d).questions.value;
    assert MapComments(qs) == d.questions;
  }

  /**
   * Normalisation is a retraction: validating a stored course given back as
   * input yields that same course, so normalising twice changes nothing.
   */
  lemma CourseRoundTrip(v: Course)
    requires Storable(v)
    ensures ValidateCourse(CourseAsInput(v)) == Success(v)
  {
    var c := CourseAsInput(v);
    assert forall p :: p in RequiredPaths ==> !Missing(c, p);
    assert MapReviews(c.reviews.value) == v.reviews;
    forall i | 0 <= i < |v.courseData|
      ensures MapCourseData(c.courseData.value)[i] == v.courseData[i]
    {
      CourseDataRoundTrip(v.courseData[i]);
    }
    assert MapCourseData(c.courseData.value) == v.courseData;
  }
}
