/** The application state around the table: the current game slot, the
    history of finished games (most recent first) and the player profiles. */
module Session {
  import opened Optional
  import opened Table
  import opened Ledger
  import opened LedgerInvariants

  /** The setup form's fields; a missing field is `None`. */
  datatype GameSettings = GameSettings(
    tableName: Option<string>,
    smallBlind: Option<int>,
    bigBlind: Option<int>,
    defaultBuyIn: Option<int>)

  const DefaultTableName: string := "Poker Game"
  const DefaultSmallBlind: int := 1
  const DefaultBigBlind: int := 2
  const DefaultBuyIn: int := 30

  /** `v || d` on a string: missing and empty are falsy. */
  function TextOr(v: Option<string>, d: string): string {
    if v.Some? && v.value != "" then v.value else d
  }

  /** `v || d` on a number: missing and zero are falsy. */
  function NumberOr(v: Option<int>, d: int): int {
    if v.Some? && v.value != 0 then v.value else d
  }

  predicate Truthy(settings: GameSettings) {
    && settings.tableName.Some? && settings.tableName.value != ""
    && settings.smallBlind.Some? && settings.smallBlind.value != 0
    && settings.bigBlind.Some? && settings.bigBlind.value != 0
    && settings.defaultBuyIn.Some? && settings.defaultBuyIn.value != 0
  }

  /** The settings a game was started with, as the setup form would pass them. */
  function SettingsOf(g: Game): GameSettings {
    GameSettings(Some(g.tableName), Some(g.smallBlind), Some(g.bigBlind), Some(g.defaultBuyIn))
  }

  /** The game record `startNewGame` builds: an empty, active, reconciled
      table whose settings fall back to the defaults when falsy. */
  function NewGame(settings: GameSettings, id: Id, startTime: Timestamp): (g: Game)
    ensures g.id == id && g.startTime == startTime && g.endTime == None
    ensures g.players == [] && g.moneyOnTable == 0 && g.isActive
    ensures g.tableName != "" && g.smallBlind != 0 && g.bigBlind != 0 && g.defaultBuyIn != 0
    ensures SettingsOf(g) == settings <==> Truthy(settings)
    ensures settings.tableName !in {None, Some("")} ==> Some(g.tableName) == settings.tableName
    ensures settings.tableName in {None, Some("")} ==> g.tableName == "Poker Game"
    ensures settings.smallBlind !in {None, Some(0)} ==> Some(g.smallBlind) == settings.smallBlind
    ensures settings.smallBlind in {None, Some(0)} ==> g.smallBlind == 1
    ensures settings.bigBlind !in {None, Some(0)} ==> Some(g.bigBlind) == settings.bigBlind
    ensures settings.bigBlind in {None, Some(0)} ==> g.bigBlind == 2
    ensures settings.defaultBuyIn !in {None, Some(0)} ==> Some(g.defaultBuyIn) == settings.defaultBuyIn
    ensures settings.defaultBuyIn in {None, Some(0)} ==> g.defaultBuyIn == 30
    ensures TotalsMatch(g) && Balanced(g) && UniqueIds(g.players)
  {
    Game(id,
         TextOr(settings.tableName, DefaultTableName),
         NumberOr(settings.smallBlind, DefaultSmallBlind),
         NumberOr(settings.bigBlind, DefaultBigBlind),
         NumberOr(settings.defaultBuyIn, DefaultBuyIn),
         startTime, None, true, 0, [])
  }

  /** Restarting from a started game's own settings rebuilds that game:
      the defaults are a fixed point. */
  lemma NewGameSettingsRoundTrip(settings: GameSettings, id: Id, startTime: Timestamp)
    ensures var g := NewGame(settings, id, startTime);
      NewGame(SettingsOf(g), id, startTime) == g
  {
  }

  datatype ContactInfo = ContactInfo(venmo: string, phone: string)

  datatype SessionRecord = SessionRecord(
    gameId: Id, date: Timestamp, buyIn: int, cashOut: int, profit: int, durationMinutes: int)

  datatype Stats = Stats(
    totalSessions: int, totalBuyIns: int, totalCashOuts: int,
    netProfit: int, biggestWin: int, biggestLoss: int)

  datatype Profile = Profile(
    id: Id,
    name: string,
    contactInfo: ContactInfo,
    createdAt: Timestamp,
    sessions: seq<SessionRecord>,
    stats: Stats)

  datatype AppState = AppState(
    currentGame: Option<Game>,
    gameHistory: seq<Game>,
    playerProfiles: seq<Profile>)

  /** `startNewGame`: fills the current-game slot. A game already in the
      slot is dropped, not archived. */
  function StartNewGame(s: AppState, settings: GameSettings, id: Id, startTime: Timestamp): (r: AppState)
    ensures r.currentGame == Some(NewGame(settings, id, startTime))
    ensures var g := r.currentGame.value;
      && g.players == [] && g.moneyOnTable == 0 && g.isActive && g.id == id
      && TotalsMatch(g) && Balanced(g)
    ensures r.gameHistory == s.gameHistory && r.playerProfiles == s.playerProfiles
  {
    s.(currentGame := Some(NewGame(settings, id, startTime)))
  }

  /** `endGame`: stamps the current game as finished, puts it at the head
      of the history and empties the slot. */
  function EndGame(s: AppState, endTime: Timestamp): (r: AppState)
    requires s.currentGame.Some?
    ensures |r.gameHistory| == |s.gameHistory| + 1
    ensures r.gameHistory[1..] == s.gameHistory
    ensures var done, g := r.gameHistory[0], s.currentGame.value;
      && done.endTime == Some(endTime) && !done.isActive
      && done.(endTime := g.endTime, isActive := g.isActive) == g
    ensures r.currentGame == None
    ensures r.playerProfiles == s.playerProfiles
  {
    var finalGame := s.currentGame.value.(endTime := Some(endTime), isActive := false);
    AppState(None, [finalGame] + s.gameHistory, s.playerProfiles)
  }

  /** Ending a game keeps its ledger as it stood: seats, stacks, buy-ins and
      the money on the table, and with them both reconciliations. */
  lemma EndGameKeepsLedger(s: AppState, endTime: Timestamp)
    requires s.currentGame.Some?
    ensures var done, g := EndGame(s, endTime).gameHistory[0], s.currentGame.value;
      && done.players == g.players
      && done.moneyOnTable == g.moneyOnTable
      && PlayerTotal(done.players) == PlayerTotal(g.players)
      && TotalBuyIns(done.players) == TotalBuyIns(g.players)
      && (TotalsMatch(g) <==> TotalsMatch(done))
      && (Balanced(g) <==> Balanced(done))
  {
  }

  /** The common characters `String.prototype.trim` removes. */
  predicate IsWhitespace(c: char) {
    || c == ' ' || c == '\t' || c == '\n' || c == '\r'
    || c == '\U{000B}' || c == '\U{000C}' || c == '\U{00A0}' || c == '\U{FEFF}'
    || c == '\U{2028}' || c == '\U{2029}'
  }

  /** `name.trim()` is truthy. */
  predicate NonBlank(name: string) {
    exists k :: 0 <= k < |name| && !IsWhitespace(name[k])
  }

  /** `addPlayerProfile`: appends a profile with no sessions and all stats
      at zero. The profile form only submits a non-blank name. */
  function AddPlayerProfile(s: AppState, id: Id, name: string, contactInfo: ContactInfo, createdAt: Timestamp): (r: AppState)
    requires NonBlank(name)
    ensures |r.playerProfiles| == |s.playerProfiles| + 1
    ensures r.playerProfiles[..|s.playerProfiles|] == s.playerProfiles
    ensures var p := r.playerProfiles[|s.playerProfiles|];
      && p.id == id && p.name == name && p.contactInfo == contactInfo && p.createdAt == createdAt
      && p.sessions == []
      && p.stats.totalSessions == 0 && p.stats.totalBuyIns == 0 && p.stats.totalCashOuts == 0
      && p.stats.netProfit == 0 && p.stats.biggestWin == 0 && p.stats.biggestLoss == 0
    ensures r.currentGame == s.currentGame && r.gameHistory == s.gameHistory
  {
    var profile := Profile(id, name, contactInfo, createdAt, [], Stats(0, 0, 0, 0, 0, 0));
    var r := s.(playerProfiles := s.playerProfiles + [profile]);
    assert r.playerProfiles[..|s.playerProfiles|] == s.playerProfiles;
    r
  }

  /** `filter(profile => profile.id !== profileId)`. */
  function RemoveProfiles(ps: seq<Profile>, profileId: Id): (r: seq<Profile>)
    ensures |r| <= |ps|
    ensures forall q :: q in r ==> q in ps && q.id != profileId
    ensures forall q :: q in ps && q.id != profileId ==> q in r
  {
    if ps == [] then []
    else
      var n := |ps| - 1;
      assert ps == ps[..n] + [ps[n]];
      var init := RemoveProfiles(ps[..n], profileId);
      if ps[n].id != profileId then init + [ps[n]] else init
  }

  /** `deletePlayerProfile`: drops every profile with the id, keeps the
      others; games in the history keep whatever they refer to. */
  function DeletePlayerProfile(s: AppState, profileId: Id): (r: AppState)
    ensures forall q :: q in r.playerProfiles ==> q in s.playerProfiles && q.id != profileId
    ensures forall q :: q in s.playerProfiles && q.id != profileId ==> q in r.playerProfiles
    ensures r.currentGame == s.currentGame && r.gameHistory == s.gameHistory
  {
    s.(playerProfiles := RemoveProfiles(s.playerProfiles, profileId))
  }

  /** Deleting keeps the survivors in their original order: it acts on each
      part of a list separately. */
  lemma {:induction false} RemoveProfilesAppend(a: seq<Profile>, b: seq<Profile>, profileId: Id)
    ensures RemoveProfiles(a + b, profileId) == RemoveProfiles(a, profileId) + RemoveProfiles(b, profileId)
    decreases |b|
  {
    if b == [] {
      assert a + b == a;
    } else {
      var n := |b| - 1;
      assert (a + b)[..|a + b| - 1] == a + b[..n];
      RemoveProfilesAppend(a, b[..n], profileId);
    }
  }

  /** Deleting an id nobody has changes nothing. */
  lemma {:induction false} RemoveAbsentProfile(ps: seq<Profile>, profileId: Id)
    requires forall k :: 0 <= k < |ps| ==> ps[k].id != profileId
    ensures RemoveProfiles(ps, profileId) == ps
    decreases |ps|
  {
    if ps != [] {
      var n := |ps| - 1;
      RemoveAbsentProfile(ps[..n], profileId);
      assert ps == ps[..n] + [ps[n]];
    }
  }

  /** Deleting twice is deleting once. */
  lemma DeleteProfileIdempotent(s: AppState, profileId: Id)
    ensures DeletePlayerProfile(DeletePlayerProfile(s, profileId), profileId) == DeletePlayerProfile(s, profileId)
  {
    var once := RemoveProfiles(s.playerProfiles, profileId);
    forall k | 0 <= k < |once|
      ensures once[k].id != profileId
    {
      assert once[k] in once;
    }
    RemoveAbsentProfile(once, profileId);
  }

  /** Deleting a just-added profile by its fresh id gives back the state
      before the add. */
  lemma AddThenDeleteProfile(s: AppState, id: Id, name: string, contactInfo: ContactInfo, createdAt: Timestamp)
    requires NonBlank(name)
    requires forall k :: 0 <= k < |s.playerProfiles| ==> s.playerProfiles[k].id != id
    ensures DeletePlayerProfile(AddPlayerProfile(s, id, name, contactInfo, createdAt), id) == s
  {
    var added := AddPlayerProfile(s, id, name, contactInfo, createdAt).playerProfiles;
    var n := |s.playerProfiles|;
    assert added == s.playerProfiles + [added[n]];
    RemoveProfilesAppend(s.playerProfiles, [added[n]], id);
    RemoveAbsentProfile(s.playerProfiles, id);
    assert RemoveProfiles([added[n]], id) == [] by {
      assert [added[n]][..0] == [];
    }
  }
}
