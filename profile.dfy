/** The profile page (client/src/pages/Profile.jsx): the avatar address it
    shows and its editor state — which field is being edited, the login
    being typed and the uploaded avatar — around the profile update and
    deletion calls, whose outcomes are inputs. Update, deletion, logout
    requests and notices are appended to an event log in order. */
module ProfilePage {
  import opened Optional
  import opened Text
  import opened AuthContext

  datatype ColorMode = Light | Dark

  /** `useColorModeValue("_Light", "_Dark")` */
  function AvatarSuffix(mode: ColorMode): (r: string)
    ensures mode == Light ==> r == "_Light"
    ensures mode == Dark ==> r == "_Dark"
  {
    match mode
    case Light => "_Light"
    case Dark => "_Dark"
  }

  /** A possibly-null string as a template literal renders it: null reads
      "null". */
  function Template(s: Option<string>): string {
    match s
    case Some(v) => v
    case None => "null"
  }

  /** `user?.avatar_url?.includes("default")` is truthy. */
  predicate IsDefaultAvatar(user: Option<Profile>) {
    user.Some? && user.value.avatarUrl.Some? && Contains(user.value.avatarUrl.value, "default")
  }

  /** The tail appended to the stored address: the size, the colour-mode
      suffix for the default picture only, and the extension. */
  function AvatarTail(isDefault: bool, mode: ColorMode): string {
    if isDefault then "512x512" + AvatarSuffix(mode) + ".webp" else "512x512.webp"
  }

  /** The address the avatar is loaded from (lines 117-122): none without a
      user; otherwise the stored address followed by the 512x512 size, with
      the colour-mode suffix only for the default picture, as a .webp. */
  function AvatarUrl(user: Option<Profile>, mode: ColorMode): (r: Option<string>)
    ensures r.Some? <==> user.Some?
    ensures user.Some? ==>
              r == Some(Template(user.value.avatarUrl) + "512x512"
                        + (if IsDefaultAvatar(user) then AvatarSuffix(mode) else "") + ".webp")
    ensures user.Some? ==>
              && StartsWith(r.value, Template(user.value.avatarUrl) + "512x512")
              && r.value[|r.value| - 5..] == ".webp"
              && |r.value| == |Template(user.value.avatarUrl)| + 12
                               + (if IsDefaultAvatar(user) then |AvatarSuffix(mode)| else 0)
  {
    if user.Some? then
      var stored := Template(user.value.avatarUrl);
      var url := stored + AvatarTail(IsDefaultAvatar(user), mode);
      assert url[..|stored| + 7] == stored + "512x512";
      assert url == stored + "512x512" + (if IsDefaultAvatar(user) then AvatarSuffix(mode) else "") + ".webp";
      Some(url)
    else None
  }

  /** The shown address contains "default" exactly when the stored one does:
      the appended size, suffix and extension never complete the word, and a
      null address renders as "null". */
  lemma AvatarUrlKeepsDefaultMarker(user: Option<Profile>, mode: ColorMode)
    requires user.Some?
    ensures Contains(AvatarUrl(user, mode).value, "default") <==> IsDefaultAvatar(user)
  {
    var stored := Template(user.value.avatarUrl);
    var tail := AvatarTail(IsDefaultAvatar(user), mode);
    var suffix := AvatarSuffix(mode);
    assert tail[0] == '5';
    assert forall j :: 0 <= j < |tail| ==> tail[j] != 'd' by {
      if IsDefaultAvatar(user) {
        assert tail == "512x512" + suffix + ".webp";
        forall j | 0 <= j < |tail| ensures tail[j] != 'd' {
          if 7 <= j < 7 + |suffix| {
            assert tail[j] == suffix[j - 7];
          }
        }
      }
    }
    ContainsAppendFenced(stored, tail, "default");
    if user.value.avatarUrl.None? {
      ContainsTooShort(stored, "default");
    }
  }

  datatype EditMode = NotEditing | EditingLogin

  /** An image file chosen in the file input. */
  datatype File = File(name: string)

  /** The profile fields sent with an update: none, or just the login. */
  datatype Fields = NoFields | LoginOnly(login: string)

  datatype Action = AvatarUpload | LoginUpdate | ProfileDeletion | AvatarDeletion

  datatype ProfileEvent =
      /** `updateProfile(fields, file, resetAvatar)` */
    | UpdateRequested(fields: Fields, file: Option<File>, reset: bool)
    | DeleteRequested
    | LogoutRequested
    | SuccessNotice(action: Action)
    | ErrorNotice(action: Action)

  /** `user?.login || ""` */
  function LoginOf(user: Option<Profile>): (r: string)
    ensures user.Some? ==> r == user.value.login
    ensures user.None? ==> r == ""
  {
    if user.Some? then user.value.login else ""
  }

  datatype EditorState = EditorState(editMode: EditMode, login: string, avatarFile: Option<File>, events: seq<ProfileEvent>)

  class Editor {
    var editMode: EditMode
    var login: string
    var avatarFile: Option<File>
    var events: seq<ProfileEvent>

    function State(): EditorState
      reads this
    {
      EditorState(editMode, login, avatarFile, events)
    }

    /** Lines 34-37: not editing, the login field holding the user's login,
      no uploaded file. */
    constructor(user: Option<Profile>)
      ensures State() == EditorState(NotEditing, LoginOf(user), None, [])
    {
      editMode, login, avatarFile, events := NotEditing, LoginOf(user), None, [];
    }

    /** The edit button (line 259). */
    method StartEditing()
      modifies this
      ensures State() == old(State()).(editMode := EditingLogin)
    {
      editMode := EditingLogin;
    }

    /** `handleLoginChange` (lines 40-42). */
    method ChangeLogin(text: string)
      modifies this
      ensures State() == old(State()).(login := text)
    {
      login := text;
    }

    /** `handleAvatarChange` (lines 44-66): without a file nothing happens;
      otherwise the file alone is uploaded, and it becomes the page's avatar
      file only when the upload succeeds. */
    method HandleAvatarChange(file: Option<File>, outcome: Outcome)
      modifies this
      ensures file.None? ==> State() == old(State())
      ensures file.Some? && outcome.Succeeded? ==>
                State() == old(State()).(avatarFile := file,
                                         events := old(events) + [UpdateRequested(NoFields, file, false), SuccessNotice(AvatarUpload)])
      ensures file.Some? && outcome.Failed? ==>
                State() == old(State()).(events := old(events) + [UpdateRequested(NoFields, file, false), ErrorNotice(AvatarUpload)])
    {
      if file.Some? {
        events := events + [UpdateRequested(NoFields, file, false)];
        match outcome {
          case Succeeded =>
            events := events + [SuccessNotice(AvatarUpload)];
            avatarFile := file;
          case Failed(_) =>
            events := events + [ErrorNotice(AvatarUpload)];
        }
      }
    }

    /** `handleSubmit` (lines 68-89): only while editing the login is the
      typed login sent, alone, and editing ends only when the update
      succeeds. */
    method HandleSubmit(outcome: Outcome)
      modifies this
      ensures old(editMode) == NotEditing ==> State() == old(State())
      ensures old(editMode) == EditingLogin && outcome.Succeeded? ==>
                State() == old(State()).(editMode := NotEditing,
                                         events := old(events) + [UpdateRequested(LoginOnly(old(login)), None, false), SuccessNotice(LoginUpdate)])
      ensures old(editMode) == EditingLogin && outcome.Failed? ==>
                State() == old(State()).(events := old(events) + [UpdateRequested(LoginOnly(old(login)), None, false), ErrorNotice(LoginUpdate)])
    {
      if editMode == EditingLogin {
        events := events + [UpdateRequested(LoginOnly(login), None, false)];
        match outcome {
          case Succeeded =>
            events := events + [SuccessNotice(LoginUpdate)];
            editMode := NotEditing;
          case Failed(_) =>
            events := events + [ErrorNotice(LoginUpdate)];
        }
      }
    }

    /** `handleCancel` (lines 91-94): stop editing and restore the user's
      current login, or "" without a user. */
    method HandleCancel(user: Option<Profile>)
      modifies this
      ensures State() == old(State()).(editMode := NotEditing, login := LoginOf(user))
    {
      editMode := NotEditing;
      login := LoginOf(user);
    }

    /** `handleDeleteProfile` (lines 96-115): logout is requested only after
      the deletion succeeds; a failure only produces an error notice. */
    method HandleDeleteProfile(outcome: Outcome)
      modifies this
      ensures outcome.Succeeded? ==>
                State() == old(State()).(events := old(events) + [DeleteRequested, SuccessNotice(ProfileDeletion), LogoutRequested])
      ensures outcome.Failed? ==>
                State() == old(State()).(events := old(events) + [DeleteRequested, ErrorNotice(ProfileDeletion)])
    {
      events := events + [DeleteRequested];
      match outcome {
        case Succeeded =>
          events := events + [SuccessNotice(ProfileDeletion), LogoutRequested];
        case Failed(_) =>
          events := events + [ErrorNotice(ProfileDeletion)];
      }
    }

    /** The "delete photo" menu item (lines 182-199): an update with no
      fields, no file and the reset flag set; the editor state is kept. */
    method DeleteAvatar(outcome: Outcome)
      modifies this
      ensures State() == old(State()).(events := old(events) + [UpdateRequested(NoFields, None, true),
                                                                 if outcome.Succeeded? then SuccessNotice(AvatarDeletion) else ErrorNotice(AvatarDeletion)])
    {
      events := events + [UpdateRequested(NoFields, None, true)];
      match outcome {
        case Succeeded =>
          events := events + [SuccessNotice(AvatarDeletion)];
        case Failed(_) =>
          events := events + [ErrorNotice(AvatarDeletion)];
      }
    }
  }
}
