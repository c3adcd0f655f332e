/**
 * The read-only projection over one match record (class MatchData in riot.py).
 * Every query is a linear scan that returns at the first hit, or `None` when the
 * scan finds nothing; a record whose lookups fail yields `None` rather than an error.
 */
module MatchView {
  import opened Wrappers

  datatype Player = Player(summonerName: string, accountId: string)
  datatype ParticipantIdentity = ParticipantIdentity(participantId: int, player: Player)
  datatype Participant = Participant(participantId: int, teamId: int)
  datatype Team = Team(teamId: int, win: string)

  datatype MatchRecord = MatchRecord(
    gameCreation: int,
    participantIdentities: seq<ParticipantIdentity>,
    participants: seq<Participant>,
    teams: seq<Team>)

  /** The position where a `for x in s: if p(x): return ...` scan returns, if any. */
  function FirstIndex<T>(s: seq<T>, p: T -> bool): (r: Option<nat>)
    ensures r.None? <==> forall i :: 0 <= i < |s| ==> !p(s[i])
    ensures r.Some? ==> r.value < |s| && p(s[r.value])
    ensures r.Some? ==> forall i :: 0 <= i < r.value ==> !p(s[i])
  {
    if s == [] then None
    else if p(s[0]) then Some(0)
    else match FirstIndex(s[1..], p)
      case None => None
      case Some(k) => Some(k + 1)
  }

  /** get_participant_id: the id of the first identity carrying `name`. */
  function ParticipantId(m: MatchRecord, name: string): (r: Option<int>)
    ensures r.None? <==>
      forall i :: 0 <= i < |m.participantIdentities| ==> m.participantIdentities[i].player.summonerName != name
    ensures r.Some? ==>
      exists k :: 0 <= k < |m.participantIdentities| && FirstNamed(m, k, name)
                   && m.participantIdentities[k].participantId == r.value
  {
    var ids := m.participantIdentities;
    match FirstIndex(ids, (pi: ParticipantIdentity) => pi.player.summonerName == name)
    case None => None
    case Some(k) => Some(ids[k].participantId)
  }

  /** Identity `k` is the first one carrying `name`. */
  ghost predicate FirstNamed(m: MatchRecord, k: nat, name: string)
    requires k < |m.participantIdentities|
  {
    && m.participantIdentities[k].player.summonerName == name
    && forall j :: 0 <= j < k ==> m.participantIdentities[j].player.summonerName != name
  }

  /** Identity `k` is the first one with participant id `idx`. */
  ghost predicate FirstWithId(m: MatchRecord, k: nat, idx: int)
    requires k < |m.participantIdentities|
  {
    && m.participantIdentities[k].participantId == idx
    && forall j :: 0 <= j < k ==> m.participantIdentities[j].participantId != idx
  }

  /** Where the scans keyed by participant id stop. */
  function IdentityIndex(m: MatchRecord, idx: int): (r: Option<nat>)
    ensures r.None? <==>
      forall i :: 0 <= i < |m.participantIdentities| ==> m.participantIdentities[i].participantId != idx
    ensures r.Some? ==> r.value < |m.participantIdentities| && FirstWithId(m, r.value, idx)
  {
    FirstIndex(m.participantIdentities, (pi: ParticipantIdentity) => pi.participantId == idx)
  }

  /** get_participant_name: the name on the first identity with participant id `idx`. */
  function ParticipantName(m: MatchRecord, idx: int): (r: Option<string>)
    ensures r.None? <==>
      forall i :: 0 <= i < |m.participantIdentities| ==> m.participantIdentities[i].participantId != idx
    ensures r.Some? ==>
      exists k :: 0 <= k < |m.participantIdentities| && FirstWithId(m, k, idx)
                   && m.participantIdentities[k].player.summonerName == r.value
  {
    match IdentityIndex(m, idx)
    case None => None
    case Some(k) => Some(m.participantIdentities[k].player.summonerName)
  }

  /** get_account_id: the account on the first identity with participant id `idx`. */
  function AccountId(m: MatchRecord, idx: int): (r: Option<string>)
    ensures r.None? <==>
      forall i :: 0 <= i < |m.participantIdentities| ==> m.participantIdentities[i].participantId != idx
    ensures r.Some? ==>
      exists k :: 0 <= k < |m.participantIdentities| && FirstWithId(m, k, idx)
                   && m.participantIdentities[k].player.accountId == r.value
  {
    match IdentityIndex(m, idx)
    case None => None
    case Some(k) => Some(m.participantIdentities[k].player.accountId)
  }

  /** get_account_name: the name on the first identity whose account is `accountId`. */
  function AccountName(m: MatchRecord, accountId: string): (r: Option<string>)
    ensures r.None? <==>
      forall i :: 0 <= i < |m.participantIdentities| ==> m.participantIdentities[i].player.accountId != accountId
    ensures r.Some? ==>
      exists k :: 0 <= k < |m.participantIdentities|
                   && m.participantIdentities[k].player.accountId == accountId
                   && m.participantIdentities[k].player.summonerName == r.value
                   && forall j :: 0 <= j < k ==> m.participantIdentities[j].player.accountId != accountId
  {
    var ids := m.participantIdentities;
    match FirstIndex(ids, (pi: ParticipantIdentity) => pi.player.accountId == accountId)
    case None => None
    case Some(k) => Some(ids[k].player.summonerName)
  }

  /** get_winning_team_id: the first team flagged "Win"; absent when none is. */
  function WinningTeamId(m: MatchRecord): (r: Option<int>)
    ensures r.None? <==> forall i :: 0 <= i < |m.teams| ==> m.teams[i].win != "Win"
    ensures r.Some? ==>
      exists k :: 0 <= k < |m.teams| && m.teams[k].win == "Win" && m.teams[k].teamId == r.value
                   && forall j :: 0 <= j < k ==> m.teams[j].win != "Win"
  {
    match FirstIndex(m.teams, (t: Team) => t.win == "Win")
    case None => None
    case Some(k) => Some(m.teams[k].teamId)
  }

  /**
   * Where the scans over `participants` for the id `pid` stop. The source feeds them
   * the result of get_participant_id, which may be None; None equals no integer id,
   * so such a scan finds nothing.
   */
  function ParticipantIndex(m: MatchRecord, pid: Option<int>): (r: Option<nat>)
    ensures r.None? <==> forall i :: 0 <= i < |m.participants| ==> Some(m.participants[i].participantId) != pid
    ensures r.Some? ==> r.value < |m.participants| && Some(m.participants[r.value].participantId) == pid
    ensures r.Some? ==> forall j :: 0 <= j < r.value ==> Some(m.participants[j].participantId) != pid
  {
    FirstIndex(m.participants, (p: Participant) => Some(p.participantId) == pid)
  }

  /** get_team_id: the team of the first participant with the named player's participant id. */
  function TeamId(m: MatchRecord, name: string): (r: Option<int>)
    ensures ParticipantId(m, name).None? ==> r.None?
    ensures r.None? <==>
      forall i :: 0 <= i < |m.participants| ==> Some(m.participants[i].participantId) != ParticipantId(m, name)
    ensures r.Some? ==>
      exists k :: 0 <= k < |m.participants|
                   && Some(m.participants[k].participantId) == ParticipantId(m, name)
                   && m.participants[k].teamId == r.value
                   && forall j :: 0 <= j < k ==> Some(m.participants[j].participantId) != ParticipantId(m, name)
  {
    match ParticipantIndex(m, ParticipantId(m, name))
    case None => None
    case Some(k) => Some(m.participants[k].teamId)
  }

  /**
   * is_in_team: whether that same participant's team equals `teamId`; absent when the
   * scan finds no participant. `teamId` is optional because is_winner passes the
   * possibly absent winning team.
   */
  function IsInTeam(m: MatchRecord, name: string, teamId: Option<int>): Option<bool>
  {
    match ParticipantIndex(m, ParticipantId(m, name))
    case None => None
    case Some(k) => Some(Some(m.participants[k].teamId) == teamId)
  }

  /** is_winner: is_in_team against the winning team. */
  function IsWinner(m: MatchRecord, name: string): Option<bool>
  {
    IsInTeam(m, name, WinningTeamId(m))
  }

  /** The list comprehension of get_team_members_ids, over any list of participants. */
  function IdsOnTeam(parts: seq<Participant>, teamId: Option<int>): (r: seq<int>)
    ensures |r| <= |parts|
    ensures teamId.None? ==> r == []
    ensures forall x :: x in r <==>
      exists j :: 0 <= j < |parts| && Some(parts[j].teamId) == teamId && parts[j].participantId == x
  {
    if parts == [] then []
    else
      var rest := IdsOnTeam(parts[1..], teamId);
      assert forall j :: 0 < j < |parts| ==> parts[j] == parts[1..][j - 1];
      if Some(parts[0].teamId) == teamId then [parts[0].participantId] + rest else rest
  }

  /** get_team_members_ids: participant ids of the participants on `teamId`, in list order. */
  function TeamMembersIds(m: MatchRecord, teamId: Option<int>): seq<int>
  {
    IdsOnTeam(m.participants, teamId)
  }

  /** get_team_members_acc_ids: the account of each teammate of `name` (the name included). */
  function TeamMembersAccIds(m: MatchRecord, name: string): (r: seq<Option<string>>)
    ensures |r| == |TeamMembersIds(m, TeamId(m, name))|
    ensures ParticipantId(m, name).None? ==> r == []
    ensures forall i :: 0 <= i < |r| ==> (r[i].None? <==>
      forall j :: 0 <= j < |m.participantIdentities| ==>
        m.participantIdentities[j].participantId != TeamMembersIds(m, TeamId(m, name))[i])
    ensures forall i :: 0 <= i < |r| && r[i].Some? ==>
      exists k :: 0 <= k < |m.participantIdentities|
                   && FirstWithId(m, k, TeamMembersIds(m, TeamId(m, name))[i])
                   && m.participantIdentities[k].player.accountId == r[i].value
  {
    var ids := TeamMembersIds(m, TeamId(m, name));
    seq(|ids|, i requires 0 <= i < |ids| => AccountId(m, ids[i]))
  }

  /** get_team_members: the display name of each teammate of `name` (the name included). */
  function TeamMembers(m: MatchRecord, name: string): (r: seq<Option<string>>)
    ensures |r| == |TeamMembersIds(m, TeamId(m, name))|
    ensures ParticipantId(m, name).None? ==> r == []
    ensures forall i :: 0 <= i < |r| ==> (r[i].None? <==>
      forall j :: 0 <= j < |m.participantIdentities| ==>
        m.participantIdentities[j].participantId != TeamMembersIds(m, TeamId(m, name))[i])
    ensures forall i :: 0 <= i < |r| && r[i].Some? ==>
      exists k :: 0 <= k < |m.participantIdentities|
                   && FirstWithId(m, k, TeamMembersIds(m, TeamId(m, name))[i])
                   && m.participantIdentities[k].player.summonerName == r[i].value
  {
    var ids := TeamMembersIds(m, TeamId(m, name));
    seq(|ids|, i requires 0 <= i < |ids| => ParticipantName(m, ids[i]))
  }

  // ---------------------------------------------------------------------------
  // Properties
  // ---------------------------------------------------------------------------

  /** is_in_team answers about exactly the participant that get_team_id reads. */
  lemma IsInTeamAgreesWithTeamId(m: MatchRecord, name: string, teamId: Option<int>)
    ensures IsInTeam(m, name, teamId).None? <==> TeamId(m, name).None?
    ensures TeamId(m, name).Some? ==> IsInTeam(m, name, teamId) == Some(TeamId(m, name) == teamId)
  {
  }

  /**
   * is_winner is true exactly when the player's team is the winning team, false when
   * the player is on another team (or no team is flagged "Win"), and absent when the
   * player is not a participant.
   */
  lemma IsWinnerIffOnWinningTeam(m: MatchRecord, name: string)
    ensures IsWinner(m, name) == Some(true) <==> TeamId(m, name).Some? && TeamId(m, name) == WinningTeamId(m)
    ensures IsWinner(m, name) == Some(false) <==> TeamId(m, name).Some? && TeamId(m, name) != WinningTeamId(m)
    ensures ParticipantId(m, name).None? ==> IsWinner(m, name).None?
  {
    IsInTeamAgreesWithTeamId(m, name, WinningTeamId(m));
  }

  /** The comprehension keeps list order: it distributes over concatenation. */
  lemma {:induction false} IdsOnTeamAppend(a: seq<Participant>, b: seq<Participant>, teamId: Option<int>)
    ensures IdsOnTeam(a + b, teamId) == IdsOnTeam(a, teamId) + IdsOnTeam(b, teamId)
  {
    if a == [] {
      assert a + b == b;
    } else {
      assert (a + b)[1..] == a[1..] + b;
      IdsOnTeamAppend(a[1..], b, teamId);
    }
  }

  /** On one participant the comprehension keeps it exactly when it is on the team. */
  lemma IdsOnTeamSingle(p: Participant, teamId: Option<int>)
    ensures IdsOnTeam([p], teamId) == if Some(p.teamId) == teamId then [p.participantId] else []
  {
    assert [p][1..] == [];
  }

  /** A player found in the match is among their own team's members. */
  lemma TeamIncludesSelf(m: MatchRecord, name: string)
    requires TeamId(m, name).Some?
    ensures ParticipantId(m, name).Some?
    ensures ParticipantId(m, name).value in TeamMembersIds(m, TeamId(m, name))
  {
    var k := ParticipantIndex(m, ParticipantId(m, name)).value;
    assert Some(m.participants[k].teamId) == TeamId(m, name);
  }

  /** No two identities share a participant id, a display name or an account. */
  ghost predicate UniqueIdentities(m: MatchRecord)
  {
    forall i, j :: 0 <= i < j < |m.participantIdentities| ==>
      && m.participantIdentities[i].participantId != m.participantIdentities[j].participantId
      && m.participantIdentities[i].player.summonerName != m.participantIdentities[j].player.summonerName
      && m.participantIdentities[i].player.accountId != m.participantIdentities[j].player.accountId
  }

  /** With unique identities, name -> id and id -> name are inverse lookups. */
  lemma NameIdRoundTrip(m: MatchRecord, name: string, idx: int)
    requires UniqueIdentities(m)
    ensures ParticipantId(m, name) == Some(idx) <==> ParticipantName(m, idx) == Some(name)
  {
    var ids := m.participantIdentities;
    if ParticipantId(m, name) == Some(idx) {
      var k :| 0 <= k < |ids| && FirstNamed(m, k, name) && ids[k].participantId == idx;
      var k' := IdentityIndex(m, idx).value;
      assert k' <= k;
    }
    if ParticipantName(m, idx) == Some(name) {
      var k := IdentityIndex(m, idx).value;
      assert ids[k].player.summonerName == name;
      var k' :| 0 <= k' < |ids| && FirstNamed(m, k', name) && ids[k'].participantId == ParticipantId(m, name).value;
      assert k' <= k;
    }
  }

  /** With unique identities, the account of participant `idx` leads back to its name. */
  lemma AccountRoundTrip(m: MatchRecord, idx: int)
    requires UniqueIdentities(m)
    requires AccountId(m, idx).Some?
    ensures AccountName(m, AccountId(m, idx).value) == ParticipantName(m, idx)
  {
    var ids := m.participantIdentities;
    var k := IdentityIndex(m, idx).value;
    var acc := ids[k].player.accountId;
    var k' :| 0 <= k' < |ids| && ids[k'].player.accountId == acc
              && ids[k'].player.summonerName == AccountName(m, acc).value
              && forall j :: 0 <= j < k' ==> ids[j].player.accountId != acc;
    assert k' <= k;
  }

  /** With unique identities, a participant's teammates by name include the participant. */
  lemma TeamMembersIncludeSelf(m: MatchRecord, name: string)
    requires UniqueIdentities(m)
    requires TeamId(m, name).Some?
    ensures Some(name) in TeamMembers(m, name)
  {
    TeamIncludesSelf(m, name);
    var idx := ParticipantId(m, name).value;
    var ids := TeamMembersIds(m, TeamId(m, name));
    var i :| 0 <= i < |ids| && ids[i] == idx;
    NameIdRoundTrip(m, name, idx);
    assert TeamMembers(m, name)[i] == Some(name);
  }

  /**
   * With unique identities and a player who has a team, the teammate names are exactly the
   * names of the identities whose participant is on that team.
   */
  lemma {:induction false} TeamMembersAreTeam(m: MatchRecord, name: string, n: string)
    requires UniqueIdentities(m)
    requires TeamId(m, name).Some?
    ensures Some(n) in TeamMembers(m, name) <==>
      exists j, k :: 0 <= j < |m.participants| && 0 <= k < |m.participantIdentities|
                     && m.participants[j].teamId == TeamId(m, name).value
                     && m.participantIdentities[k].participantId == m.participants[j].participantId
                     && m.participantIdentities[k].player.summonerName == n
  {
    if Some(n) in TeamMembers(m, name) {
      TeamMembersAreTeamSound(m, name, n);
    }
    if exists j, k :: 0 <= j < |m.participants| && 0 <= k < |m.participantIdentities|
                     && m.participants[j].teamId == TeamId(m, name).value
                     && m.participantIdentities[k].participantId == m.participants[j].participantId
                     && m.participantIdentities[k].player.summonerName == n {
      var j, k :| 0 <= j < |m.participants| && 0 <= k < |m.participantIdentities|
                     && m.participants[j].teamId == TeamId(m, name).value
                     && m.participantIdentities[k].participantId == m.participants[j].participantId
                     && m.participantIdentities[k].player.summonerName == n;
      TeamMembersAreTeamComplete(m, name, n, j, k);
    }
  }

  /** Every name in the list belongs to an identity whose participant is on the team. */
  lemma {:induction false} TeamMembersAreTeamSound(m: MatchRecord, name: string, n: string)
    requires TeamId(m, name).Some?
    requires Some(n) in TeamMembers(m, name)
    ensures exists j, k :: 0 <= j < |m.participants| && 0 <= k < |m.participantIdentities|
                     && m.participants[j].teamId == TeamId(m, name).value
                     && m.participantIdentities[k].participantId == m.participants[j].participantId
                     && m.participantIdentities[k].player.summonerName == n
  {
    var ids := TeamMembersIds(m, TeamId(m, name));
    var r := TeamMembers(m, name);
    var i :| 0 <= i < |r| && r[i] == Some(n);
    assert ids[i] in ids;
    var j :| 0 <= j < |m.participants| && Some(m.participants[j].teamId) == TeamId(m, name)
             && m.participants[j].participantId == ids[i];
    var k :| 0 <= k < |m.participantIdentities| && FirstWithId(m, k, ids[i])
             && m.participantIdentities[k].player.summonerName == n;
  }

  /** With unique identities, the name of an identity on the team is in the list. */
  lemma {:induction false} TeamMembersAreTeamComplete(m: MatchRecord, name: string, n: string, j: int, k: int)
    requires UniqueIdentities(m)
    requires TeamId(m, name).Some?
    requires 0 <= j < |m.participants| && 0 <= k < |m.participantIdentities|
             && m.participants[j].teamId == TeamId(m, name).value
             && m.participantIdentities[k].participantId == m.participants[j].participantId
             && m.participantIdentities[k].player.summonerName == n
    ensures Some(n) in TeamMembers(m, name)
  {
    var ids := TeamMembersIds(m, TeamId(m, name));
    var pid := m.participants[j].participantId;
    assert pid in ids;
    var i :| 0 <= i < |ids| && ids[i] == pid;
    assert IdentityIndex(m, pid).value == k;
    assert TeamMembers(m, name)[i] == Some(n);
  }

  /**
   * With unique identities and a player who has a team, the teammate accounts are exactly the
   * accounts of the identities whose participant is on that team.
   */
  lemma {:induction false} TeamMembersAccIdsAreTeam(m: MatchRecord, name: string, a: string)
    requires UniqueIdentities(m)
    requires TeamId(m, name).Some?
    ensures Some(a) in TeamMembersAccIds(m, name) <==>
      exists j, k :: 0 <= j < |m.participants| && 0 <= k < |m.participantIdentities|
                     && m.participants[j].teamId == TeamId(m, name).value
                     && m.participantIdentities[k].participantId == m.participants[j].participantId
                     && m.participantIdentities[k].player.accountId == a
  {
    if Some(a) in TeamMembersAccIds(m, name) {
      TeamMembersAccIdsAreTeamSound(m, name, a);
    }
    if exists j, k :: 0 <= j < |m.participants| && 0 <= k < |m.participantIdentities|
                     && m.participants[j].teamId == TeamId(m, name).value
                     && m.participantIdentities[k].participantId == m.participants[j].participantId
                     && m.participantIdentities[k].player.accountId == a {
      var j, k :| 0 <= j < |m.participants| && 0 <= k < |m.participantIdentities|
                     && m.participants[j].teamId == TeamId(m, name).value
                     && m.participantIdentities[k].participantId == m.participants[j].participantId
                     && m.participantIdentities[k].player.accountId == a;
      TeamMembersAccIdsAreTeamComplete(m, name, a, j, k);
    }
  }

  /** Every account in the list belongs to an identity whose participant is on the team. */
  lemma {:induction false} TeamMembersAccIdsAreTeamSound(m: MatchRecord, name: string, a: string)
    requires TeamId(m, name).Some?
    requires Some(a) in TeamMembersAccIds(m, name)
    ensures exists j, k :: 0 <= j < |m.participants| && 0 <= k < |m.participantIdentities|
                     && m.participants[j].teamId == TeamId(m, name).value
                     && m.participantIdentities[k].participantId == m.participants[j].participantId
                     && m.participantIdentities[k].player.accountId == a
  {
    var ids := TeamMembersIds(m, TeamId(m, name));
    var r := TeamMembersAccIds(m, name);
    var i :| 0 <= i < |r| && r[i] == Some(a);
    assert ids[i] in ids;
    var j :| 0 <= j < |m.participants| && Some(m.participants[j].teamId) == TeamId(m, name)
             && m.participants[j].participantId == ids[i];
    var k :| 0 <= k < |m.participantIdentities| && FirstWithId(m, k, ids[i])
             && m.participantIdentities[k].player.accountId == a;
  }

  /** With unique identities, the account of an identity on the team is in the list. */
  lemma {:induction false} TeamMembersAccIdsAreTeamComplete(m: MatchRecord, name: string, a: string, j: int, k: int)
    requires UniqueIdentities(m)
    requires TeamId(m, name).Some?
    requires 0 <= j < |m.participants| && 0 <= k < |m.participantIdentities|
             && m.participants[j].teamId == TeamId(m, name).value
             && m.participantIdentities[k].participantId == m.participants[j].participantId
             && m.participantIdentities[k].player.accountId == a
    ensures Some(a) in TeamMembersAccIds(m, name)
  {
    var ids := TeamMembersIds(m, TeamId(m, name));
    var pid := m.participants[j].participantId;
    assert pid in ids;
    var i :| 0 <= i < |ids| && ids[i] == pid;
    assert IdentityIndex(m, pid).value == k;
    assert TeamMembersAccIds(m, name)[i] == Some(a);
  }
}
