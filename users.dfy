/** The signed-in `User` record and its computed properties: avatar URL,
    display name, course codes and the `programme` spelling of `program`. */
module Users {
  import opened Text
  import Posts

  datatype UserCourse = UserCourse(id: string, name: string, courseCode: string, courseName: string, year: int)

  datatype User = User(
    id: string,
    email: string,
    name: string,
    username: Option<string>,
    bio: Option<string>,
    picture: Option<string>,
    campus: Option<string>,
    program: Option<string>,
    year: Option<int>,
    courses: Option<seq<UserCourse>>)

  /** `User.avatarURL`: no picture, no URL; otherwise the same prefix rule as a
      post's author picture. */
  function AvatarURL(u: User): (r: Option<string>)
    ensures r.None? <==> u.picture.None?
    ensures r.Some? ==> r.value == Posts.AvatarURL(u.picture.value)
    ensures r.Some? && StartsWith(u.picture.value, "http") ==> r.value == u.picture.value
  {
    match u.picture
    case None => None
    case Some(p) => Some(Posts.AvatarURL(p))
  }

  /** `User.displayName`: the name, or the email when the name is empty. */
  function DisplayName(u: User): (r: string)
    ensures r == u.name || r == u.email
    ensures r == [] ==> u.name == [] && u.email == []
    ensures u.name != [] ==> r == u.name
  {
    if u.name == [] then u.email else u.name
  }

  /** `User.courseCodes`: one code per course, in course order. */
  function CourseCodes(u: User): (r: seq<string>)
    ensures u.courses.None? ==> r == []
    ensures u.courses.Some? ==> |r| == |u.courses.value|
    ensures u.courses.Some? ==> forall i :: 0 <= i < |r| ==> r[i] == u.courses.value[i].courseCode
  {
    match u.courses
    case None => []
    case Some(cs) => seq(|cs|, i requires 0 <= i < |cs| => cs[i].courseCode)
  }

  /** `User.programme`, the British spelling the views use. */
  function Programme(u: User): (r: Option<string>)
    ensures r == u.program
  {
    u.program
  }
}
