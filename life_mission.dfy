/** The LifeMission entity of Models/LifeMission.swift. */
module LifeMissions {
  import opened Common

  /** The theme a mission gets when none is chosen. */
  const DefaultTheme: string := "default"

  /** A stored life mission; its goals are found from the goal side. */
  datatype LifeMission = LifeMission(
    id: Id,
    content: string,
    createdAt: Time,
    lastReviewedAt: Option<Time>,
    visualTheme: string)

  /** `LifeMission.init` with its default theme. */
  function NewMission(id: Id, content: string, now: Time, visualTheme: string := DefaultTheme): LifeMission
  {
    LifeMission(id, content, now, None, visualTheme)
  }

  /** A mission created without a theme has the "default" theme and has
      never been reviewed. */
  lemma NewMissionDefaults(id: Id, content: string, now: Time)
    ensures var m := NewMission(id, content, now);
      && m.visualTheme == "default" && m.lastReviewedAt == None
      && m.content == content && m.createdAt == now
  {
  }
}
