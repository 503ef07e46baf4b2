/**
 * The "Complete your profile" alert: a profile is incomplete when the
 * faculty is the backend's placeholder or there is no avatar; the alert then
 * lists what is missing, joined with " and ", and renders nothing otherwise.
 */
module ProfileAlert {
  import opened Js
  import opened Types

  const FacultyInfo: string := "faculty information"
  const ProfilePicture: string := "profile picture"

  /** `isIncomplete`: the faculty is the placeholder or the avatar is falsy, i.e. empty. */
  predicate IsIncomplete(user: User)
    ensures IsIncomplete(user) <==> user.fakultas == NotSpecified || user.avatar == ""
  {
    user.fakultas == NotSpecified || !Truthy(JsString(user.avatar))
  }

  /**
   * `missingInfo`, built by conditional pushes: "faculty information" iff the
   * faculty is unspecified, "profile picture" iff there is no avatar, in
   * that order, each at most once.
   */
  method MissingInfo(user: User) returns (missing: seq<string>)
    ensures FacultyInfo in missing <==> user.fakultas == NotSpecified
    ensures ProfilePicture in missing <==> user.avatar == ""
    ensures forall k :: 0 <= k < |missing| ==> missing[k] in {FacultyInfo, ProfilePicture}
    ensures |missing| == (if user.fakultas == NotSpecified then 1 else 0) + (if user.avatar == "" then 1 else 0)
    ensures |missing| == 2 ==> missing[0] == FacultyInfo && missing[1] == ProfilePicture
  {
    missing := [];
    if user.fakultas == NotSpecified {
      missing := missing + [FacultyInfo];
    }
    if user.avatar == "" {
      missing := missing + [ProfilePicture];
    }
  }

  /**
   * What the alert renders: nothing for a complete profile; otherwise the
   * list of missing items joined with " and ", which is then never empty.
   */
  method Render(user: User) returns (description: Option<string>)
    ensures description.None? <==> !IsIncomplete(user)
    ensures description.Some? ==> description.value in {FacultyInfo, ProfilePicture, FacultyInfo + " and " + ProfilePicture}
    ensures description == Some(FacultyInfo + " and " + ProfilePicture) <==> user.fakultas == NotSpecified && user.avatar == ""
    ensures description == Some(FacultyInfo) <==> user.fakultas == NotSpecified && user.avatar != ""
    ensures description == Some(ProfilePicture) <==> user.fakultas != NotSpecified && user.avatar == ""
  {
    if !IsIncomplete(user) {
      return None;
    }
    var missing := MissingInfo(user);
    if |missing| == 2 {
      assert missing[1..] == [ProfilePicture];
      assert Join(missing, " and ") == FacultyInfo + " and " + ProfilePicture;
    } else {
      assert missing == [if user.fakultas == NotSpecified then FacultyInfo else ProfilePicture];
      assert Join(missing, " and ") == missing[0];
    }
    description := Some(Join(missing, " and "));
  }
}
