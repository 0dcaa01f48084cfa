/** The profile page: the daily calorie goal computed from the revised
    Harris-Benedict equations (Roza and Shizgal, 1984) and an activity
    multiplier, the normalisation applied to a loaded profile, and the
    conversion of a camera data URL into an upload file. Numbers are exact
    reals; the server and the camera are parameters. */
module Profile {
  import opened Optional
  import opened JsRuntime

  /** The goal used while the profile is incomplete. */
  const DefaultGoal: int := 2000

  datatype ActivityLevel = Sedentary | LightlyActive | ModeratelyActive | VeryActive | SuperActive

  /** Position of a level from Sedentary (0) to Super active (4). */
  function Rank(level: ActivityLevel): nat {
    match level
    case Sedentary => 0
    case LightlyActive => 1
    case ModeratelyActive => 2
    case VeryActive => 3
    case SuperActive => 4
  }

  /** The `activityMultiplier` table of calculateTDEE. */
  function Multiplier(level: ActivityLevel): (m: real)
    ensures 1.2 <= m <= 1.9
    ensures m == 1.2 <==> level == Sedentary
    ensures m == 1.9 <==> level == SuperActive
  {
    match level
    case Sedentary => 1.2
    case LightlyActive => 1.375
    case ModeratelyActive => 1.55
    case VeryActive => 1.725
    case SuperActive => 1.9
  }

  /** The profile fields the page edits. `activityLevel` is None for an empty
      selection; a number field is falsy exactly when it is 0. */
  datatype UserProfile = UserProfile(
    fullname: string,
    age: real,
    weight: real,
    height: real,
    gender: string,
    activityLevel: Option<ActivityLevel>,
    dailyCalorieGoal: int)

  /** The basal metabolic rate: one equation for "male", the other for every
      other gender string. */
  function CalculateBMR(age: real, weight: real, height: real, gender: string): (bmr: real)
    ensures gender == "male" ==> bmr == 88.362 + 13.397 * weight + 4.799 * height - 5.677 * age
    ensures gender != "male" ==> bmr == 447.593 + 9.247 * weight + 3.098 * height - 4.330 * age
  {
    if gender == "male" then 88.362 + 13.397 * weight + 4.799 * height - 5.677 * age
    else 447.593 + 9.247 * weight + 3.098 * height - 4.330 * age
  }

  /** The daily energy expenditure: BMR times the level's multiplier, rounded
      with Math.round. */
  function CalculateTDEE(bmr: real, level: ActivityLevel): (tdee: int)
    ensures tdee as real - 1.0 / 2.0 <= bmr * Multiplier(level) < tdee as real + 1.0 / 2.0
  {
    Round(bmr * Multiplier(level))
  }

  /** Some input of the goal calculation is falsy. */
  predicate Incomplete(p: UserProfile)
    ensures !Incomplete(p) <==>
              p.age != 0.0 && p.weight != 0.0 && p.height != 0.0 && |p.gender| > 0 && p.activityLevel.Some?
  {
    p.age == 0.0 || p.weight == 0.0 || p.height == 0.0 || p.gender == "" || p.activityLevel.None?
  }

  /** calculateCalorieGoal: 2000 for an incomplete profile, the rounded TDEE otherwise. */
  function CalculateCalorieGoal(p: UserProfile): (goal: int)
    ensures Incomplete(p) ==> goal == DefaultGoal
    ensures !Incomplete(p) ==>
      goal as real - 1.0 / 2.0
        <= CalculateBMR(p.age, p.weight, p.height, p.gender) * Multiplier(p.activityLevel.value)
        < goal as real + 1.0 / 2.0
  {
    if Incomplete(p) then DefaultGoal
    else CalculateTDEE(CalculateBMR(p.age, p.weight, p.height, p.gender), p.activityLevel.value)
  }

  /** The multipliers strictly increase from Sedentary to Super active. */
  lemma MultipliersIncrease(a: ActivityLevel, b: ActivityLevel)
    requires Rank(a) < Rank(b)
    ensures Multiplier(a) < Multiplier(b)
  {
  }

  /** For a non-negative BMR a more active level never lowers the TDEE. */
  lemma TdeeMonotoneInLevel(bmr: real, a: ActivityLevel, b: ActivityLevel)
    requires bmr >= 0.0
    requires Rank(a) <= Rank(b)
    ensures CalculateTDEE(bmr, a) <= CalculateTDEE(bmr, b)
  {
    assert Multiplier(a) <= Multiplier(b);
    assert bmr * Multiplier(a) <= bmr * Multiplier(b);
    RoundMonotone(bmr * Multiplier(a), bmr * Multiplier(b));
  }

  /** A larger BMR never lowers the TDEE. */
  lemma TdeeMonotoneInBmr(x: real, y: real, level: ActivityLevel)
    requires x <= y
    ensures CalculateTDEE(x, level) <= CalculateTDEE(y, level)
  {
    assert x * Multiplier(level) <= y * Multiplier(level);
    RoundMonotone(x * Multiplier(level), y * Multiplier(level));
  }

  /** Heavier or taller gives a higher BMR, older a lower one, under both equations. */
  lemma BmrMonotone(age1: real, weight1: real, height1: real, age2: real, weight2: real, height2: real, gender: string)
    requires weight1 <= weight2 && height1 <= height2 && age1 >= age2
    ensures CalculateBMR(age1, weight1, height1, gender) <= CalculateBMR(age2, weight2, height2, gender)
  {
  }

  /** The comparison is exact: "Male" or "M" get the second equation. */
  lemma OnlyExactMaleUsesFirstEquation(age: real, weight: real, height: real, gender: string)
    requires gender != "male"
    ensures CalculateBMR(age, weight, height, gender) == CalculateBMR(age, weight, height, "female")
  {
  }

  /** The worked example: a 25-year-old man of 70 kg and 175 cm. */
  lemma WorkedExample()
    ensures CalculateBMR(25.0, 70.0, 175.0, "male") == 1724.052
    ensures CalculateTDEE(1724.052, ModeratelyActive) == 2672
    ensures CalculateCalorieGoal(UserProfile("", 25.0, 70.0, 175.0, "male", Some(ModeratelyActive), 0)) == 2672
  {
    assert 1724.052 * 1.55 == 2672.2806;
    assert (2672.2806 + 1.0 / 2.0).Floor == 2672;
  }

  /** A complete profile of an active user gets a goal no lower than the same
      profile at a less active level. */
  lemma GoalMonotoneInLevel(p: UserProfile, level: ActivityLevel)
    requires !Incomplete(p)
    requires CalculateBMR(p.age, p.weight, p.height, p.gender) >= 0.0
    requires Rank(p.activityLevel.value) <= Rank(level)
    ensures CalculateCalorieGoal(p) <= CalculateCalorieGoal(p.(activityLevel := Some(level)))
  {
    TdeeMonotoneInLevel(CalculateBMR(p.age, p.weight, p.height, p.gender), p.activityLevel.value, level);
  }

  /** The goal does not depend on the stored goal or the name, so
      recalculating it a second time changes nothing. */
  lemma RecalculationIdempotent(p: UserProfile, name: string, stored: int)
    ensures CalculateCalorieGoal(p.(fullname := name, dailyCalorieGoal := stored)) == CalculateCalorieGoal(p)
  {
  }

  /** A profile as the server sends it; None stands for a missing or null field. */
  datatype ProfileResponse = ProfileResponse(
    success: bool,
    fullname: string,
    age: real,
    weight: real,
    height: real,
    gender: string,
    activityLevel: Option<ActivityLevel>,
    dailyCalorieGoal: Option<int>,
    profilePicture: Option<string>)

  /** The profile loadProfile keeps: a falsy goal becomes 2000 and a falsy
      activity level becomes Sedentary. */
  function Normalize(r: ProfileResponse): (p: UserProfile)
    ensures p.activityLevel.Some?
    ensures p.dailyCalorieGoal != 0
    ensures r.dailyCalorieGoal.Some? && r.dailyCalorieGoal.value != 0 ==> p.dailyCalorieGoal == r.dailyCalorieGoal.value
    ensures r.dailyCalorieGoal.None? || r.dailyCalorieGoal.value == 0 ==> p.dailyCalorieGoal == DefaultGoal
    ensures r.activityLevel.Some? ==> p.activityLevel == r.activityLevel
    ensures r.activityLevel.None? ==> p.activityLevel == Some(Sedentary)
    ensures (p.fullname, p.age, p.weight, p.height, p.gender) == (r.fullname, r.age, r.weight, r.height, r.gender)
  {
    var goal := match r.dailyCalorieGoal
      case Some(g) => if g != 0 then g else DefaultGoal
      case None => DefaultGoal;
    var level := match r.activityLevel
      case Some(l) => l
      case None => Sedentary;
    UserProfile(r.fullname, r.age, r.weight, r.height, r.gender, Some(level), goal)
  }

  /** After a load only the body measurements and the gender can make the
      profile incomplete. */
  lemma LoadedProfileIncompleteness(r: ProfileResponse)
    ensures Incomplete(Normalize(r)) <==> r.age == 0.0 || r.weight == 0.0 || r.height == 0.0 || r.gender == ""
  {
  }

  /** The text of `dataURI.split(',')[0].split(':')[1].split(';')[0]`, or the
      TypeError raised when the header has no ':'. */
  function MimeOf(dataUri: string): (mime: Result<string>)
    ensures mime.Ok? ==> ',' !in mime.value && ':' !in mime.value && ';' !in mime.value
  {
    var header := Split(dataUri, ',')[0];
    var fields := Split(header, ':');
    if |fields| < 2 then Err("TypeError: cannot read properties of undefined")
    else
      var mime := Split(fields[1], ';')[0];
      assert mime in Split(fields[1], ';');
      assert fields[1] in fields;
      assert forall c :: c in mime ==> c in fields[1];
      assert header in Split(dataUri, ',');
      assert forall c :: c in fields[1] ==> c in header;
      Ok(mime)
  }

  /** Where the MIME type is read: after the scheme's ':' and up to the next
      ';', ':' or ',' (section 2 of RFC 2397 puts `;base64` and then `,`
      after the media type). */
  lemma {:induction false} MimeOfDataUrl(scheme: string, mime: string, rest: string)
    requires ',' !in scheme && ':' !in scheme
    requires ',' !in mime && ':' !in mime && ';' !in mime
    requires rest == [] || rest[0] in {';', ':', ','}
    ensures MimeOf(scheme + [':'] + mime + rest) == Ok(mime)
  {
    var s := scheme + [':'] + mime + rest;
    // the header: everything before the first ','
    var headRest := Split(rest, ',')[0];
    assert s == (scheme + [':'] + mime) + rest;
    assert ',' !in scheme + [':'] + mime;
    SplitPrefix(scheme + [':'] + mime, rest, ',');
    var header := scheme + [':'] + mime + headRest;
    assert Split(s, ',')[0] == header;
    // its ':'-fields: the scheme, then the mime type glued to what follows
    assert header == scheme + ([':'] + (mime + headRest));
    SplitPrefix(scheme, [':'] + (mime + headRest), ':');
    SplitAtSeparator(mime + headRest, ':');
    SplitPrefix(mime, headRest, ':');
    var field := mime + Split(headRest, ':')[0];
    assert Split(header, ':')[1] == field;
    // the first ';'-part of that field is the mime type
    SplitPrefix(mime, Split(headRest, ':')[0], ';');
    var tail := Split(headRest, ':')[0];
    if rest == [] {
      assert headRest == "";
      assert tail == "";
    } else if rest[0] == ',' {
      assert rest == [','] + rest[1..];
      SplitAtSeparator(rest[1..], ',');
      assert headRest == "";
      assert tail == "";
    } else if rest[0] == ':' {
      assert rest == [':'] + rest[1..];
      SplitPrefix([':'], rest[1..], ',');
      var r1 := Split(rest[1..], ',')[0];
      assert headRest == [':'] + r1;
      SplitAtSeparator(r1, ':');
      assert tail == "";
    } else {
      assert rest == [';'] + rest[1..];
      SplitPrefix([';'], rest[1..], ',');
      var r1 := Split(rest[1..], ',')[0];
      assert headRest == [';'] + r1;
      SplitPrefix([';'], r1, ':');
      assert tail == [';'] + Split(r1, ':')[0];
      SplitAtSeparator(Split(r1, ':')[0], ';');
    }
    assert Split(tail, ';')[0] == "";
    assert mime + "" == mime;
  }

  /** A camera data URL's type is image/jpeg. */
  lemma JpegDataUrl(payload: string)
    requires ',' !in payload
    ensures MimeOf("data:image/jpeg;base64," + payload) == Ok("image/jpeg")
  {
    assert "data:image/jpeg;base64," + payload == "data" + [':'] + "image/jpeg" + (";base64," + payload);
    MimeOfDataUrl("data", "image/jpeg", ";base64," + payload);
  }

  /** A header without ':' makes the MIME extraction throw. */
  lemma MimeOfWithoutColon(dataUri: string)
    requires ':' !in Split(dataUri, ',')[0]
    ensures MimeOf(dataUri).Err?
  {
    SplitNoSeparator(Split(dataUri, ',')[0], ':');
  }

  datatype Blob = Blob(mimeType: string, bytes: seq<byte>)

  /** dataURItoBlob, from the `atob` result onwards: `byteString` is None when
      `atob` threw. Byte i is char code i, stored into a Uint8Array. */
  method DataUriToBlob(dataUri: string, byteString: Option<string>) returns (blob: Result<Blob>)
    ensures blob.Ok? <==> byteString.Some? && MimeOf(dataUri).Ok?
    ensures blob.Ok? ==> blob.value.mimeType == MimeOf(dataUri).value
    ensures blob.Ok? ==> |blob.value.bytes| == |byteString.value|
    ensures blob.Ok? ==> forall i :: 0 <= i < |byteString.value| ==>
              blob.value.bytes[i] as int == (byteString.value[i] as int) % 256
  {
    if byteString.None? {
      return Err("InvalidCharacterError");
    }
    var s := byteString.value;
    var mime := MimeOf(dataUri);
    if mime.Err? {
      return Err(mime.message);
    }
    var ia := new byte[|s|];
    for i := 0 to |s|
      invariant forall j :: 0 <= j < i ==> ia[j] as int == (s[j] as int) % 256
    {
      ia[i] := ToUint8(s[i] as int);
    }
    blob := Ok(Blob(mime.value, ia[..]));
  }

  /** For a string `atob` produces (every char code below 256) the bytes are
      the char codes themselves. */
  lemma BytesAreCharCodes(b: Blob, s: string)
    requires |b.bytes| == |s|
    requires forall i :: 0 <= i < |s| ==> b.bytes[i] as int == (s[i] as int) % 256
    requires forall i :: 0 <= i < |s| ==> (s[i] as int) < 256
    ensures forall i :: 0 <= i < |s| ==> b.bytes[i] as int == s[i] as int
  {
  }

  /** The upload file getPicture builds from the blob. */
  datatype PictureFile = PictureFile(name: string, mimeType: string, bytes: seq<byte>)

  class ProfilePage {
    var profile: UserProfile
    var profilePicture: Option<string>
    var tempProfilePicture: Option<PictureFile>
    const userId: int

    /** The page starts from the default profile, named after the signed-in user. */
    constructor (userId: int, username: string)
      ensures this.userId == userId
      ensures profile == UserProfile(username, 0.0, 0.0, 0.0, "", Some(Sedentary), DefaultGoal)
      ensures profilePicture.None? && tempProfilePicture.None?
    {
      this.userId := userId;
      profile := UserProfile(username, 0.0, 0.0, 0.0, "", Some(Sedentary), DefaultGoal);
      profilePicture := None;
      tempProfilePicture := None;
    }

    /** onProfileChange, and the first step of updateProfile: only the stored
        goal changes, to the recalculated one. */
    method OnProfileChange()
      modifies this`profile
      ensures profile == old(profile).(dailyCalorieGoal := CalculateCalorieGoal(old(profile)))
    {
      profile := profile.(dailyCalorieGoal := CalculateCalorieGoal(profile));
    }

    /** The success callback of loadProfile. */
    method OnProfileLoaded(response: ProfileResponse)
      modifies this`profile, this`profilePicture
      ensures response.success ==> profile == Normalize(response)
      ensures !response.success ==> profile == old(profile)
      ensures profilePicture ==
        if response.success && response.profilePicture.Some? && response.profilePicture.value != ""
        then Some("data:image/jpeg;base64," + response.profilePicture.value)
        else old(profilePicture)
    {
      if response.success {
        profile := Normalize(response);
        if response.profilePicture.Some? && response.profilePicture.value != "" {
          profilePicture := Some("data:image/jpeg;base64," + response.profilePicture.value);
        }
      }
    }

    /** getPicture once the camera answered: `dataUrl` is None when it gave
        none, and an empty data URL is falsy like a missing one. The preview is set before the conversion, so a conversion that
        throws leaves the preview without an upload file. */
    method OnPictureTaken(dataUrl: Option<string>, byteString: Option<string>)
      modifies this`profilePicture, this`tempProfilePicture
      ensures dataUrl.None? || dataUrl.value == "" ==>
                profilePicture == old(profilePicture) && tempProfilePicture == old(tempProfilePicture)
      ensures dataUrl.Some? && dataUrl.value != "" ==> profilePicture == dataUrl
      ensures dataUrl.Some? && dataUrl.value != "" && byteString.Some? && MimeOf(dataUrl.value).Ok? ==>
                tempProfilePicture.Some?
                && tempProfilePicture.value.name == "profile_picture.jpg"
                && tempProfilePicture.value.mimeType == "image/jpeg"
                && |tempProfilePicture.value.bytes| == |byteString.value|
                && forall i :: 0 <= i < |byteString.value| ==>
                     tempProfilePicture.value.bytes[i] as int == (byteString.value[i] as int) % 256
      ensures dataUrl.Some? && dataUrl.value != "" && (byteString.None? || MimeOf(dataUrl.value).Err?) ==>
                tempProfilePicture == old(tempProfilePicture)
    {
      if dataUrl.Some? && dataUrl.value != "" {
        profilePicture := dataUrl;
        var blob := DataUriToBlob(dataUrl.value, byteString);
        if blob.Ok? {
          tempProfilePicture := Some(PictureFile("profile_picture.jpg", "image/jpeg", blob.value.bytes));
        }
      }
    }
  }
}
