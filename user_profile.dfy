/** The editing state of the `UserProfile` screen. */
module UserProfile {
  import opened Options
  import opened AuthProvider

  const DefaultBio: string := "Hey there! I'm using ChatFlow."
  const DefaultStatus: string := "online"

  /** `user?.username || ""`. */
  function NameOf(user: Option<User>): (name: string)
    ensures user.None? ==> name == ""
    ensures user.Some? ==> name == user.value.username
  {
    match user
    case Some(u) => u.username
    case None => ""
  }

  class Profile {
    var isEditing: bool
    var displayName: string
    var bio: string
    var status: string

    constructor (user: Option<User>)
      ensures !isEditing && displayName == NameOf(user)
      ensures bio == DefaultBio && status == DefaultStatus
    {
      isEditing := false;
      displayName := NameOf(user);
      bio := DefaultBio;
      status := DefaultStatus;
    }

    /** The Edit button. */
    method Edit()
      modifies this
      ensures isEditing
      ensures displayName == old(displayName) && bio == old(bio) && status == old(status)
    {
      isEditing := true;
    }

    /** Typing in the display-name input, which is shown only while editing. */
    method SetDisplayName(name: string)
      requires isEditing
      modifies this
      ensures displayName == name
      ensures isEditing && bio == old(bio) && status == old(status)
    {
      displayName := name;
    }

    /** Typing in the bio input, which is shown only while editing. */
    method SetBio(text: string)
      requires isEditing
      modifies this
      ensures bio == text
      ensures isEditing && displayName == old(displayName) && status == old(status)
    {
      bio := text;
    }

    /** `handleSave`: leaves edit mode and keeps the edited values. */
    method Save()
      modifies this
      ensures !isEditing
      ensures displayName == old(displayName) && bio == old(bio) && status == old(status)
    {
      isEditing := false;
    }

    /**
     * `handleCancel`: the display name goes back to the signed-in user's name
     * (read when the button is pressed); the bio keeps its edit.
     */
    method Cancel(user: Option<User>)
      modifies this
      ensures !isEditing && displayName == NameOf(user)
      ensures bio == old(bio) && status == old(status)
    {
      displayName := NameOf(user);
      isEditing := false;
    }
  }
}
