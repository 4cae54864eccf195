/** What the squash filter remembers about one scoreboard team, how a team packet
    changes it, and the packets it re-emits for the team at finalize. */
module Teams {
  import opened Common
  import opened Packets

  /** Team.Status: fixed by the action of the first packet seen for the name. */
  datatype Status = Created | Updated | Removed

  /** SquashFilter.Team: the pending membership changes are `added` and `removed`. */
  datatype Team = Team(status: Status, name: string, info: TeamInfo, added: set<PlayerName>, removed: set<PlayerName>)

  function StatusFor(action: TeamAction): Status {
    if action == Create then Created else if action == Remove then Removed else Updated
  }

  predicate Disjoint(t: Team) {
    t.added !! t.removed
  }

  /** One name of an ADD_PLAYER or CREATE: cancel a pending removal, else record an addition. */
  function AddOne(t: Team, p: PlayerName): Team {
    if p in t.removed then t.(removed := t.removed - {p}) else t.(added := t.added + {p})
  }

  /** One name of a REMOVE_PLAYER: cancel a pending addition, else record a removal. */
  function RemoveOne(t: Team, p: PlayerName): Team {
    if p in t.added then t.(added := t.added - {p}) else t.(removed := t.removed + {p})
  }

  function AddPlayers(t: Team, ps: seq<PlayerName>): Team {
    if ps == [] then t else AddOne(AddPlayers(t, ps[..|ps| - 1]), ps[|ps| - 1])
  }

  function RemovePlayers(t: Team, ps: seq<PlayerName>): Team {
    if ps == [] then t else RemoveOne(RemovePlayers(t, ps[..|ps| - 1]), ps[|ps| - 1])
  }

  /** A player's pending net membership change: +1 added, -1 removed, 0 neither. */
  function Net(t: Team, p: PlayerName): int {
    (if p in t.added then 1 else 0) - (if p in t.removed then 1 else 0)
  }

  /** Adding a name raises its net change by one, capped at +1, and leaves every
      other name alone; the two sets stay disjoint. */
  lemma AddOneNet(t: Team, p: PlayerName, q: PlayerName)
    requires Disjoint(t)
    ensures Disjoint(AddOne(t, p))
    ensures Net(AddOne(t, p), p) == (if Net(t, p) == 1 then 1 else Net(t, p) + 1)
    ensures q != p ==> Net(AddOne(t, p), q) == Net(t, q)
    ensures AddOne(t, p).status == t.status && AddOne(t, p).name == t.name && AddOne(t, p).info == t.info
  {
  }

  /** Removing a name lowers its net change by one, capped at -1. */
  lemma RemoveOneNet(t: Team, p: PlayerName, q: PlayerName)
    requires Disjoint(t)
    ensures Disjoint(RemoveOne(t, p))
    ensures Net(RemoveOne(t, p), p) == (if Net(t, p) == -1 then -1 else Net(t, p) - 1)
    ensures q != p ==> Net(RemoveOne(t, p), q) == Net(t, q)
    ensures RemoveOne(t, p).status == t.status && RemoveOne(t, p).name == t.name && RemoveOne(t, p).info == t.info
  {
  }

  /** Adding then removing a name not pending either way restores the team, and so
      does removing then adding it. */
  lemma AddRemoveCancel(t: Team, p: PlayerName)
    requires p !in t.added && p !in t.removed
    ensures RemoveOne(AddOne(t, p), p) == t
    ensures AddOne(RemoveOne(t, p), p) == t
  {
  }

  lemma {:induction false} AddPlayersKeepsDisjoint(t: Team, ps: seq<PlayerName>)
    requires Disjoint(t)
    ensures Disjoint(AddPlayers(t, ps))
    ensures AddPlayers(t, ps).status == t.status && AddPlayers(t, ps).name == t.name
    ensures AddPlayers(t, ps).info == t.info
  {
    if ps != [] {
      AddPlayersKeepsDisjoint(t, ps[..|ps| - 1]);
    }
  }

  lemma {:induction false} RemovePlayersKeepsDisjoint(t: Team, ps: seq<PlayerName>)
    requires Disjoint(t)
    ensures Disjoint(RemovePlayers(t, ps))
    ensures RemovePlayers(t, ps).status == t.status && RemovePlayers(t, ps).name == t.name
    ensures RemovePlayers(t, ps).info == t.info
  {
    if ps != [] {
      RemovePlayersKeepsDisjoint(t, ps[..|ps| - 1]);
    }
  }

  // ---------------------------------------------------------------------------
  // A team packet applied to the team table (SquashFilter.java:321-364)
  // ---------------------------------------------------------------------------

  function NewTeam(action: TeamAction, name: string): Team {
    Team(StatusFor(action), name, NoInfo(), {}, {})
  }

  /** The team table after one team packet: the team is created on first sight
      with a status from the action; a REMOVE deletes a CREATED team; CREATE and
      UPDATE replace the attributes; CREATE and ADD_PLAYER add the names;
      REMOVE_PLAYER removes them. */
  function ApplyTeam(teams: map<string, Team>, name: string, action: TeamAction, info: TeamInfo, players: seq<PlayerName>): map<string, Team> {
    var t0 := if name in teams then teams[name] else NewTeam(action, name);
    if action == Remove && t0.status == Created then teams - {name}
    else
      var t1 := if action == Create || action == Update then t0.(info := info) else t0;
      var t2 := if action == AddPlayer || action == Create then AddPlayers(t1, players) else t1;
      var t3 := if action == RemovePlayer then RemovePlayers(t2, players) else t2;
      teams[name := t3]
  }

  /** Every team is stored under its own name and its pending sets are disjoint. */
  predicate TableValid(teams: map<string, Team>) {
    forall n :: n in teams ==> teams[n].name == n && Disjoint(teams[n])
  }

  /** The table invariant holds after every packet; only the packet's team changes;
      a known team keeps its status (or is deleted, only by a REMOVE of a CREATED
      team), and an unknown one gets the status of this first action. */
  lemma ApplyTeamFacts(teams: map<string, Team>, name: string, action: TeamAction, info: TeamInfo, players: seq<PlayerName>)
    requires TableValid(teams)
    ensures var r := ApplyTeam(teams, name, action, info, players);
            && TableValid(r)
            && (forall n :: n != name ==> (n in r <==> n in teams) && (n in r ==> r[n] == teams[n]))
            && (name in teams && name in r ==> r[name].status == teams[name].status)
            && (name in teams && name !in r ==> action == Remove && teams[name].status == Created)
            && (name !in teams ==> name in r && r[name].status == StatusFor(action))
            && (name in teams && action == Remove && teams[name].status == Created ==> name !in r)
  {
    var t0 := if name in teams then teams[name] else NewTeam(action, name);
    var t1 := if action == Create || action == Update then t0.(info := info) else t0;
    AddPlayersKeepsDisjoint(t1, players);
    var t2 := if action == AddPlayer || action == Create then AddPlayers(t1, players) else t1;
    RemovePlayersKeepsDisjoint(t2, players);
  }

  /** A REMOVE of a team that was not created in the squashed span changes nothing:
      a REMOVE after an UPDATE leaves the table as it was. */
  lemma RemoveOfUpdatedTeamIsIgnored(teams: map<string, Team>, name: string, info: TeamInfo, players: seq<PlayerName>)
    requires name in teams && teams[name].status == Updated
    ensures ApplyTeam(teams, name, Remove, info, players) == teams
  {
    assert teams[name := teams[name]] == teams;
  }

  // ---------------------------------------------------------------------------
  // The packets re-emitted for a team (SquashFilter.java:477-497)
  // ---------------------------------------------------------------------------

  /** `team.added.toArray(new String[n])`: the added names in the set's iteration
      order `ks`, then nulls up to length n when n is larger. */
  function ToArray(ks: seq<PlayerName>, n: int): (r: seq<PlayerName>)
    ensures |r| == if n > |ks| then n else |ks|
  {
    ks + seq(if n > |ks| then n - |ks| else 0, _ => None)
  }

  /** The packets for one team, given the iteration order `ks` of its added set. */
  function TeamPackets(t: Team, ks: seq<PlayerName>): seq<Packet> {
    var added := ToArray(ks, |t.added|);
    var removed := ToArray(ks, |t.removed|);
    match t.status
    case Created => [TeamPacket(t.name, Create, t.info, added)]
    case Updated =>
      (if t.info.color.Some? then [TeamPacket(t.name, Update, t.info, [])] else [])
      + (if |added| > 0 then [TeamPacket(t.name, AddPlayer, NoInfo(), added)] else [])
      + (if |removed| > 0 then [TeamPacket(t.name, RemovePlayer, NoInfo(), removed)] else [])
    case Removed => [TeamPacket(t.name, Remove, NoInfo(), [])]
  }

  /** The re-emitted packets of an updated team. The ADD_PLAYER array lists exactly
      the added names. The REMOVE_PLAYER array is built from the ADDED set: it lists
      the added names again followed by nulls up to the number of removed names,
      so no removed name ever reaches it. The attribute packet is missing whenever
      the color is null. */
  lemma UpdatedTeamPackets(t: Team, ks: seq<PlayerName>)
    requires t.status == Updated && Disjoint(t) && IsEnumeration(ks, t.added)
    ensures var ps := TeamPackets(t, ks);
            && (t.info.color.None? ==> forall i :: 0 <= i < |ps| ==> ps[i].action != Update)
            && (forall i :: 0 <= i < |ps| && ps[i].action == AddPlayer ==> ps[i].players == ks)
            && (forall i, p :: 0 <= i < |ps| && ps[i].action == RemovePlayer && p in ps[i].players ==>
                  p in t.added || p.None?)
            && (forall i, p :: 0 <= i < |ps| && ps[i].action == RemovePlayer && p in t.removed && p in ps[i].players ==>
                  p.None?)
            && (forall i :: 0 <= i < |ps| ==> ps[i].name == t.name)
  {
    CardinalityOfEnumeration(ks, t.added);
  }

  /** An instance: a team that only lost player "a" emits a REMOVE_PLAYER packet
      whose single entry is null instead of "a". */
  lemma RemovedPlayerIsLost()
    ensures TeamPackets(Team(Updated, "t", NoInfo(), {}, {Some("a")}), [])
         == [TeamPacket("t", RemovePlayer, NoInfo(), [None])]
  {
    assert |{Some("a")}| == 1;
    assert ToArray([], 1) == [None];
    assert ToArray([], 0) == [];
  }

  /** A CREATE after a REMOVE keeps the team REMOVED, so finalize emits only the
      removal and the re-created team with its new attributes and players is lost. */
  lemma CreateAfterRemoveIsLost(teams: map<string, Team>, name: string, info: TeamInfo,
                                players: seq<PlayerName>, ks: seq<PlayerName>)
    requires TableValid(teams) && name in teams && teams[name].status == Removed
    ensures var r := ApplyTeam(teams, name, Create, info, players);
            && name in r && r[name].status == Removed && r[name].info == info
            && TeamPackets(r[name], ks) == [TeamPacket(name, Remove, NoInfo(), [])]
  {
    AddPlayersKeepsDisjoint(teams[name].(info := info), players);
  }

  /** The REMOVE_PLAYER array is built from `added`: an UPDATED team with at least
      one added name and no more removed than added names emits its added names
      twice, once to add and once to remove them again. */
  lemma AddedPlayersAreRemovedAgain(t: Team, ks: seq<PlayerName>)
    requires t.status == Updated && IsEnumeration(ks, t.added)
    requires t.added != {} && |t.removed| <= |t.added|
    ensures TeamPackets(t, ks)
         == (if t.info.color.Some? then [TeamPacket(t.name, Update, t.info, [])] else [])
            + [TeamPacket(t.name, AddPlayer, NoInfo(), ks), TeamPacket(t.name, RemovePlayer, NoInfo(), ks)]
  {
    CardinalityOfEnumeration(ks, t.added);
    assert ToArray(ks, |t.added|) == ks;
    assert ToArray(ks, |t.removed|) == ks;
  }

  /** A created team is re-created with all its attributes and added names; a
      removed team is removed. */
  lemma CreatedAndRemovedTeamPackets(t: Team, ks: seq<PlayerName>)
    requires IsEnumeration(ks, t.added)
    ensures t.status == Created ==> TeamPackets(t, ks) == [TeamPacket(t.name, Create, t.info, ks)]
    ensures t.status == Removed ==> TeamPackets(t, ks) == [TeamPacket(t.name, Remove, NoInfo(), [])]
  {
    CardinalityOfEnumeration(ks, t.added);
    assert ToArray(ks, |t.added|) == ks;
  }
}
