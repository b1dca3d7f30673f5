/** The stored progress record of a player and the progress fields a request carries. */
module Models {

  /** `UserData`, one row of the `UserData` table. `metabits` is an `i64`, the two ranks are
      `i32`, the speedrun time an `f32` (a real here) and the timestamp a `SystemTime`
      (an integer here). */
  datatype UserData = UserData(
    discordId: string,
    token: string,
    betaTester: bool,
    metabits: int,
    dinoRank: int,
    prestigeRank: int,
    singularitySpeedrunTime: real,
    allSharksObtained: bool,
    allHiddenAchievementsObtained: bool,
    editedTimestamp: int)

  /** `UpdateUserData`: the progress fields `update_userdata` writes. */
  datatype UpdateUserData = UpdateUserData(
    metabits: int,
    dinoRank: int,
    prestigeRank: int,
    singularitySpeedrunTime: real,
    allSharksObtained: bool,
    allHiddenAchievementsObtained: bool)

  /** `OGUpdateUserData`: the body of the original update route, a player token, the beta
      flag and the progress. */
  datatype OGUpdateUserData = OGUpdateUserData(playerToken: string, betaTester: bool, progress: UpdateUserData)

  /** `UpdateUserData::from(og)`. */
  function FromOG(og: OGUpdateUserData): UpdateUserData
  {
    og.progress
  }

  /** The row an update leaves: the identity of the row is kept, the beta flag and every
      progress field are the new ones, and the edit time is `now`. */
  function Updated(row: UserData, beta: bool, data: UpdateUserData, now: int): (r: UserData)
    ensures r.discordId == row.discordId && r.token == row.token
    ensures r.betaTester == beta && r.editedTimestamp == now
    ensures r.metabits == data.metabits && r.dinoRank == data.dinoRank && r.prestigeRank == data.prestigeRank
    ensures r.singularitySpeedrunTime == data.singularitySpeedrunTime
    ensures r.allSharksObtained == data.allSharksObtained
    ensures r.allHiddenAchievementsObtained == data.allHiddenAchievementsObtained
  {
    row.(betaTester := beta, metabits := data.metabits, dinoRank := data.dinoRank,
         prestigeRank := data.prestigeRank, singularitySpeedrunTime := data.singularitySpeedrunTime,
         allSharksObtained := data.allSharksObtained,
         allHiddenAchievementsObtained := data.allHiddenAchievementsObtained, editedTimestamp := now)
  }
}
