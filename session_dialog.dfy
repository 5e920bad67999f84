// aya-frontend/src/app/components/session-dialog/session-dialog.component.ts:
// the form for a session's resources. Each resource is a form group with a
// resource type and three ids, checked by `sessionValidator`; the `resources`
// form array takes new groups at its end and drops one by index, and carries a
// `maxLength(3)` validator, which marks a longer array invalid without
// stopping a push.

module SessionDialog {
  import opened Common

  /** One resource form group. A control's value is `None` when it is null or the
      control is missing. */
  datatype ResourceForm = ResourceForm(resourceType: Option<string>, discordChannelId: Option<string>,
                                       discordGuildId: Option<string>, youtubeChannelId: Option<string>)

  /** The errors `sessionValidator` reports, one at a time. */
  datatype ValidationError = MissingDiscordChannelId | MissingDiscordGuildId | MissingYoutubeChannelId | UnknownResourceType

  /** JavaScript's `!value` for a string control: null or empty. */
  predicate Falsy(value: Option<string>)
  {
    value.None? || value.value == ""
  }

  /** `sessionValidator`: `None` for a valid group, else the first error in the order
      the switch checks. */
  function SessionValidator(control: ResourceForm): (err: Option<ValidationError>)
    ensures control.resourceType == Some("discord") ==>
              err == (if Falsy(control.discordChannelId) then Some(MissingDiscordChannelId)
                      else if Falsy(control.discordGuildId) then Some(MissingDiscordGuildId)
                      else None)
    ensures control.resourceType == Some("youtube") ==>
              err == (if Falsy(control.youtubeChannelId) then Some(MissingYoutubeChannelId) else None)
    ensures control.resourceType !in {Some("discord"), Some("youtube")} ==> err == Some(UnknownResourceType)
  {
    match control.resourceType
    case Some("discord") =>
      if Falsy(control.discordChannelId) then Some(MissingDiscordChannelId)
      else if Falsy(control.discordGuildId) then Some(MissingDiscordGuildId)
      else None
    case Some("youtube") =>
      if Falsy(control.youtubeChannelId) then Some(MissingYoutubeChannelId)
      else None
    case _ => Some(UnknownResourceType)
  }

  /** A resource the dialog can submit: a Discord channel with its guild, or a YouTube
      channel. The other type's ids play no part. */
  ghost predicate Complete(control: ResourceForm)
  {
    (control.resourceType == Some("discord") && !Falsy(control.discordChannelId) && !Falsy(control.discordGuildId)) ||
    (control.resourceType == Some("youtube") && !Falsy(control.youtubeChannelId))
  }

  /** The validator accepts exactly the complete resources. */
  lemma ValidatorAcceptsComplete(control: ResourceForm)
    ensures SessionValidator(control).None? <==> Complete(control)
  {
  }

  /** A Discord resource missing both ids is reported for its channel first. */
  lemma ChannelReportedBeforeGuild(channelId: Option<string>, guildId: Option<string>, youtubeChannelId: Option<string>)
    requires Falsy(channelId)
    ensures SessionValidator(ResourceForm(Some("discord"), channelId, guildId, youtubeChannelId)) == Some(MissingDiscordChannelId)
  {
  }

  /** The group `pushNewForm` adds: a Discord resource with empty ids. */
  const NewForm: ResourceForm := ResourceForm(Some("discord"), Some(""), Some(""), Some(""))

  /** `Validators.maxLength(3)` on the array. */
  const MaxResources: nat := 3

  /** The array's validity: no more than three groups, each valid. */
  ghost predicate ArrayValid(resources: seq<ResourceForm>)
  {
    |resources| <= MaxResources && forall i :: 0 <= i < |resources| ==> SessionValidator(resources[i]).None?
  }

  /** `FormArray.removeAt`. */
  function RemoveAt(resources: seq<ResourceForm>, id: nat): (r: seq<ResourceForm>)
    requires id < |resources|
    ensures |r| == |resources| - 1
    ensures forall i :: 0 <= i < id ==> r[i] == resources[i]
    ensures forall i :: id <= i < |r| ==> r[i] == resources[i + 1]
  {
    resources[..id] + resources[id + 1..]
  }

  /** Removing the group just pushed gives back the array; removing a group keeps a
      valid array valid. */
  lemma RemoveAtProperties(resources: seq<ResourceForm>, form: ResourceForm, id: nat)
    requires id < |resources|
    ensures RemoveAt(resources + [form], |resources|) == resources
    ensures ArrayValid(resources) ==> ArrayValid(RemoveAt(resources, id))
  {
    assert (resources + [form])[..|resources|] == resources;
    if ArrayValid(resources) {
      var r := RemoveAt(resources, id);
      forall i | 0 <= i < |r|
        ensures SessionValidator(r[i]).None?
      {
        if i < id {
          assert r[i] == resources[i];
        } else {
          assert r[i] == resources[i + 1];
        }
      }
    }
  }

  /** `SessionDialogComponent`'s form state. */
  class SessionDialogComponent {
    var resources: seq<ResourceForm>

    constructor()
      ensures resources == []
    {
      resources := [];
    }

    /** `pushNewForm`: the new group goes at the end; it is not valid yet, so neither is
        the array. */
    method PushNewForm()
      modifies this
      ensures resources == old(resources) + [NewForm]
      ensures !ArrayValid(resources)
    {
      resources := resources + [NewForm];
      assert SessionValidator(resources[|resources| - 1]) == Some(MissingDiscordChannelId);
    }

    /** `deleteForm`: an id outside the array is ignored; otherwise exactly the group at
        that index goes, the others keeping their order. */
    method DeleteForm(id: int)
      modifies this
      ensures id < 0 || id >= |old(resources)| ==> resources == old(resources)
      ensures 0 <= id < |old(resources)| ==> resources == RemoveAt(old(resources), id)
      ensures old(ArrayValid(resources)) ==> ArrayValid(resources)
    {
      if id < 0 || id >= |resources| {
        return;
      }
      RemoveAtProperties(resources, NewForm, id);
      resources := resources[..id] + resources[id + 1..];
    }
  }
}
