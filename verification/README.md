# r4chii-backend: a model of its state machines

r4chii-backend is a chat backend: a Rust service layer over Postgres tables, and an
in-memory hub for presence and voice calls. This project models the parts of it where
correctness is a statement about many operations at once, and proves those statements
with Dafny 4.11. `dafny verify dfyconfig.toml` checks the whole project.

## Layout

- `Common`, `Permissions`, `Tables`: identifiers, permission masks as sets of bits (with the
  lemmas that tie them to the 64-bit integers), the tables and the queries on them.
- `Transitions`: every operation on servers, roster, roles and channels as a function from
  tables to tables, and runs of them. `Invariants` proves what every step of every run keeps.
- `Answers`, `Effects`, `Histories`, `Outcomes`: read off the rows of the tables, without the
  service's own gates and queries: what every call answers, what it changes and leaves alone,
  which calls of a run each fact in the tables is due to, and what that means for the accounts.
- `Hierarchy`, `Powers`, `RoleOrder`, `Access`, `Tombstones`: statements over whole runs, about
  the role hierarchy, what each permission bit is needed for, reordering, the five ways channel
  access is decided, and deleted public threads.
- `Service`: the same operations as a class that changes its tables in place, loops included,
  proved against `Transitions` and the access gate.
- `Voice`, `HubService`, `Gateway`: the hub as a class whose methods run without interference,
  and any run of socket events against a flat description of who is in which call.
- `HubLocks`: the hub one lock region at a time, so that calls in flight interleave.
  `Expulsions`: the same with the authorization of joins, and kicks, bans and timeouts, in between.
- `Sessions`, `Lockout`, `Registration`, `Auth`: the authentication state machines over time,
  and the service that runs them statement by statement.
- `Pairs`, `Friends`, `Blocks`, `Profiles`: direct messages and friend requests under the pair's
  advisory lock, what they come to, what blocking promises, and bulk profile reads on top.
- `Pagination`, `Text`: cursor pages, slugs and mention tokens.

## Reading the statements

A failed call changes nothing. New identifiers come from outside and a call whose new
identifier is taken is refused. The clock is an argument. Tables start empty.

The parts of the schema the statements rely on: a new role has no permission bit, a new
channel is not restricted, and deleting a server, a role or a membership deletes the rows
that hang off it (`crates/db/src/server.rs:105-110`, `crates/db/src/channel.rs:827-831`).

Some promises fail. Each has a concrete run or input that shows it and the exact condition
under which the code keeps the promise, read off the state and the step about to be taken:

- A voice join gives up its lock between leaving and inserting. Two racing joins put an
  account in two calls, and later leave it in a call on a connection that is gone
  (`HubLocks.RacingJoinsLeaveAGhost`). An account stays in one call throughout a run exactly
  when no insert region runs while another call holds the account
  (`HubLocks.OneRoomExactlyWithoutSecondInserts`). Every seat is a registered connection
  throughout a run exactly when no close drops a connection that still has a seat and no join
  seats one that is already gone (`HubLocks.SeatsHeldExactlyWithoutStranding`). Joins that
  take turns guarantee both (`HubLocks.TurnsKeepOneRoom`).
- Session verification is a select and a later touch. A session whose idle window closes in
  between comes back to life (`Sessions.RevivesExactlyOnIdleTouch`), and five can count
  (`Sessions.SplitVerifyBreaksCap`). The cap of four holds throughout a run exactly when no
  step adds a counting session to four: a late touch, or a commit whose row still counts
  (`Sessions.CapHoldsExactlyWhen`). In a run without late touches no commit is one either,
  so the cap holds (`Sessions.AtMostFour`).
- A kick takes the account out of the server's calls after the database has changed. A join
  authorized before it can take its seat after the eviction has looked, and stays
  (`Expulsions.KickedAccountStaysInCall`). Whoever is expelled is out, or about to be taken
  out, throughout a run exactly when no hub region loses track of it: such a join, an eviction
  that turns to another call of the account, or a lookup that answers no for the server's own
  channel (`Expulsions.ExpelledLeaveExactlyWhen`).
- A login reads the lock before it verifies the password. One that reads before the fifth
  failure is recorded gets in under the lock and lifts it
  (`Lockout.OvertakingLoginPassesLock`), exactly when the lock it saw does not cover the
  moment and the recorded one does (`Lockout.PassesLockExactlyWhen`).
- The minimum gap of a minute between two mails is kept over a run exactly when no call whose
  guards let its mail through comes within a minute of one
  (`Registration.GapKeptExactlyWhen`), and a mail that does has one of four causes
  (`Registration.SoonMailsExactlyWhen`), each of which happens: wrong guesses burned the row
  (`Registration.BurnForgetsCooldown`); a registration completes on checks made before the
  address got its account, and mails a registered address
  (`Registration.TwoTabsForgetCooldown`); a resend updates the row after another one did,
  because its cooldown test is a plain select and its update tests the address only
  (`Registration.OverlappingResendsForgetCooldown`); the row is dated by the beginning of a
  transaction that mailed later (`Registration.SlowMailShortensCooldown`).
- A registration whose two looks at the row straddle another one's insert keeps its mail back;
  if that row is then burned, it leaves a live row with a code nobody received
  (`Registration.CodeKeptBack`, `Registration.WithholdsExactlyWhen`).
- `resend_verification_code` is described as issuing a code for a live registration; its
  update does not test the expiry (`crates/auth/src/service.rs:374-378` and `:400-406`), so it
  can bring an expired row back to life (`Registration.ExpiredRowComesBack`). Where no row is
  live it mails and revives exactly when an expired row has not been purged
  (`Registration.ResendRevivesExactlyWhen`).
- A block takes no lock, so a friend request that checked for blocks before it can still be
  written after it (`Blocks.BlockCanBeOvertaken`). A blocked pair is without a friendship
  throughout a run exactly when no request inserts after its check went stale
  (`Blocks.BlocksHoldExactlyWithoutLateInserts`). The same holds for new direct messages
  (`Blocks.BlockedPairGetsDm`, `Blocks.DmsRespectBlocksExactlyWhen`).
- A slug is cut after its hyphens are trimmed, so it can end in one
  (`Text.TrailingHyphenHappens`, `Text.TrailingHyphenExactlyWhen`).
- Following cursors with a limit of 0 lists nothing (`Pagination.WalkIsComplete`).

Where code and comment disagree the model follows the code. The cooldown test in `register`
runs only after a live row has been ruled out, so it withholds no mail of a registration that
nothing overtakes, whatever its comment says (`Registration.TransactionMails`).

## Model

| member | source | states |
|---|---|---|
| `Permissions.OrRepresentsUnion` | crates/domain/src/service.rs:1862-1866 | OR-ing two 64-bit masks is the union of their bit sets |
| `Permissions.AndRepresentsIntersection` | crates/domain/src/service.rs:1905-1907 | AND-ing two 64-bit masks is the intersection of their bit sets |
| `Permissions.HasIsMembership` | crates/domain/src/permissions.rs:55-57 | `has(mask, bit)` is membership of the bit |
| `Permissions.KnownRepresents` | crates/domain/src/permissions.rs:12-53 | the thirteen known bits are the mask 0x1fff |
| `Tables.EffectiveIsNarrowest` | crates/domain/src/service.rs:45-74 | containment through parent and server yields the narrowest of all levels that are set |
| `Invariants.StepKeepsInv` | crates/domain/src/service.rs:322-379 | every operation keeps the joint invariant: one owner membership per server equal to the owner column, no account both banned and member, distinct role positions with the one default alone at 0, assignments and grants within their server, threads never restricted and under a live-or-dead top-level channel of their server, tombstone present exactly when gone, role and channel limits |
| `Invariants.ReachableStatesSatisfyInv` | crates/domain/src/service.rs:1797-1843 | the invariant holds in every state of every run from empty tables |
| `Invariants.RepositionedPositions` | crates/db/src/server_role.rs:175-190 | after the position updates entry `i` of an `n`-entry order sits at `n - i`, every other role is as it was |
| `Invariants.RolesReorder` | crates/domain/src/service.rs:2083-2096 | a complete reorder keeps positions distinct, non-negative, and 0 for the default role only |
| `Invariants.SetMemberRolesKeeps` | crates/domain/src/service.rs:2105-2182 | replacing assignments keeps them naming non-default roles of the member's own server |
| `Invariants.CreateRoleKeeps` | crates/domain/src/service.rs:1909-1934 | a created role sits strictly above all others of its server, under an id not used before, and the joint invariant with the limit of 250 holds |
| `Invariants.CreateChannelKeeps` | crates/domain/src/service.rs:505-527 | channel creation keeps at most 500 live text and voice channels per server |
| `Answers.AccessMeans` | crates/domain/src/service.rs:3178-3238 | the access gate admits, by the rows: the participants of a direct message, the members of a server to its standing channels, and to a restricted one the owner, whom a role gives ADMIN, and whom a role gives the bit in its mask for the channel or for the channel a thread is under |
| `Answers.GateMeans` | crates/domain/src/service.rs:1873-1890 | the permission gate answers by the rows of the roles an account carries: not a member, no role with the bit or ADMIN, timed out |
| `Answers.AnswersAsExpected` | crates/domain/src/service.rs:1797-2314 | every call answers as the rows say, each refusal and their order included, ranks compared role by role |
| `Effects.EveryCallDoesThis` | crates/domain/src/service.rs:1909-2314 | every call that succeeds changes the named rows to the named values and no other row of any table, and one that fails changes nothing |
| `Histories.HoldsExactlyWhenDue` | crates/domain/src/service.rs:1797-2314 | in every state of every run each membership, ban, timeout, assigned role, role bit, channel grant, restriction, visibility, deletion and participation is there exactly when a successful call established it and no later one ended it |
| `Outcomes.BannedStaysOut` | crates/domain/src/service.rs:2264-2314 | from a successful ban on, until an unban of the target or the end of the server, the target is recorded as banned, is no member, and every join of it is refused with that error |
| `Outcomes.RemovedMayRejoin` | crates/domain/src/service.rs:2231-2259 | whoever was kicked or left is out, and its next join succeeds, without roles and without a timeout |
| `Outcomes.TimedOutIsRefused` | crates/domain/src/service.rs:1873-1890 | from a timeout on, until it is lifted or replaced or the member is gone, no gated call of the member succeeds before its end |
| `Outcomes.PlainMemberNeedsTheBit` | crates/db/src/channel.rs:613-633 | on a restricted channel a member who is neither owner nor given ADMIN is admitted exactly when the stored mask of one of its roles has the bit: a grant row with an empty mask opens nothing |
| `Outcomes.EmptyGrantShutsOut` | crates/db/src/channel.rs:681-705 | storing an empty mask for a role shuts out a member no other role of whom has the bit |
| `Outcomes.GrantLetsIn` | crates/domain/src/service.rs:1213-1250 | storing the bit for a role admits everybody who carries it, to the channel and the threads under it |
| `Outcomes.ThreadFollowsParent` | crates/domain/src/service.rs:3178-3238 | a thread that is not deleted itself admits exactly whom the channel it is under admits |
| `Outcomes.DeletedAdmitsNobody` | crates/domain/src/service.rs:741-803 | from its deletion on a channel, and every thread under it, admits nobody |
| `Outcomes.DmAdmitsItsTwo` | crates/domain/src/service.rs:1475-1553 | in every state after it was opened a direct message admits its two participants and nobody else |
| `Hierarchy.CeilingNeverRises` | crates/domain/src/service.rs:1892-1900 | along any run without a call by the owner, the highest top position of the other members never rises, and every role at or above it keeps every field, stays, and is newly held by nobody |
| `Hierarchy.RunUnharmed` | crates/domain/src/service.rs:1946-2046 | the same for every bound on the top positions, with the bound kept and no permission bit gained |
| `Hierarchy.StepUnharmed` | crates/domain/src/service.rs:2105-2182 | one call by anybody but the owner, of any kind and on any server, leaves the server unharmed in that sense |
| `Hierarchy.NonOwnerReorderIsEmpty` | crates/domain/src/service.rs:2051-2082 | a caller who is not the owner reorders successfully only when there is nothing to reorder |
| `Hierarchy.StepKeepsPositions` | crates/domain/src/service.rs:2068-2082 | one call by anybody but the owner, of any kind and on any server, moves no role of the server, below its own top or above |
| `Hierarchy.OnlyTheOwnerMovesRoles` | crates/domain/src/service.rs:2051-2100 | along any run without the owner, a role whose row stays keeps its position |
| `Hierarchy.NoBitAppears` | crates/domain/src/service.rs:1990-2000 | without the owner no permission bit appears that none of the server's roles carried |
| `Hierarchy.StoredBitsKnown` | crates/domain/src/permissions.rs:53 | every mask stored in any reachable state is within the known bits |
| `Hierarchy.HoldersAtTheTopStay` | crates/domain/src/service.rs:2231-2314 | along such a run whoever holds a role at the bound is not kicked, banned, timed out, pardoned or stripped of it by anyone, as long as it does not leave itself |
| `Powers.NoBitNoGate` | crates/domain/src/service.rs:1873-1890 | without the bit and without ADMIN in any role of the server, only its owner passes the gate |
| `Powers.NoBitNoPower` | crates/domain/src/permissions.rs:12-53 | along any run without the owner, what a bit governs is untouched if no role carries it: roles, channels and grants, visibility, bans, timeouts, memberships, bit by bit |
| `RoleOrder.ReorderThenList` | crates/domain/src/service.rs:2083-2100 | after a successful reorder positions are exactly n..1 in the order given, nothing else about any role changed, and listing roles returns that order followed by the default role |
| `RoleOrder.DescendingUnique` | crates/db/src/server_role.rs:107-118 | roles with distinct positions have one listing by descending position |
| `RoleOrder.PositionsFitColumn` | crates/domain/src/service.rs:1925-1926 | positions stay in the 32-bit column for the first 2^31 - 251 calls |
| `Access.RestrictionsAgree` | crates/db/src/channel.rs:543-559 | own-or-parent, parent-or-own and coalesced restriction are the same under the invariant |
| `Access.HeldSplits` | crates/db/src/server_role.rs:209-226 | what a member holds is the default role and the explicit assignments; its bits are theirs |
| `Access.ViewersMatchGate` | crates/domain/src/service.rs:1046-1126 | the per-member test of the viewer list is the access gate |
| `Access.AccessibleMatchesGate` | crates/domain/src/service.rs:2969-2989 | the event list holds a channel, of a server or a direct message, exactly when the gate admits the account |
| `Access.FormsAgree` | crates/db/src/message.rs:239-259 | gate, listing, viewer list, event list and search filter agree for a live server channel under the invariant |
| `Access.FormsAgreeAlways` | crates/domain/src/service.rs:3178-3238 | the same in every state of every run |
| `Tombstones.StepLifecycle` | crates/db/src/channel.rs:306-336 | a step never rewrites a tombstone, never revives a thread, and takes a thread away only by deleting it or its parent, recording whether it was listed |
| `Tombstones.EligibleIsListed` | crates/domain/src/service.rs:76-89 | the eligibility recorded at deletion is exactly membership of the public list at that moment |
| `Tombstones.PublicReadAnswers` | crates/domain/src/service.rs:1338-1401 | by the columns, the anonymous read answers with the row exactly when the thread, undeleted and under an undeleted channel of a server that is there, is not restricted and neither its own, its channel's nor the server's visibility is private |
| `Tombstones.SitemapLists` | crates/domain/src/service.rs:1438-1468 | the sitemap lists exactly such threads with a slug where none of the three is less than public |
| `Tombstones.ThreadGoneMeansListedWhenDeleted` | crates/domain/src/service.rs:1389-1401 | over any run, the public read answers "gone" exactly when the event that took the thread away found it listed, with the row exactly when it is open and nothing on the way is private, and otherwise not found |
| `Tombstones.AnswerIsSettled` | crates/domain/src/service.rs:741-803 | once a thread is gone no later visibility, restriction or deletion alters its answer |
| `Service.DomainService.MemberContextOf` | crates/domain/src/service.rs:1847-1867 | the context is the union of held masks, the highest held position or 0, and the held roles, in whatever order rows come |
| `Service.DomainService.FoldRows` | crates/domain/src/service.rs:1862-1866 | the fold computes union and maximum over any set of rows |
| `Service.FoldedMasksDecideBits` | crates/domain/src/service.rs:1862-1866 | OR-ing the 64-bit masks of the rows represents the union that the fold computes on sets, and `has` on it decides every bit |
| `Service.DomainService.RequireGate` | crates/domain/src/service.rs:1873-1890 | owner and ADMIN bypass the bit; a timeout still refuses |
| `Service.DomainService.CreateRole` | crates/domain/src/service.rs:1909-1934 | the new state and answer are those of the transition, and the invariant holds |
| `Service.DomainService.UpdateRole` | crates/domain/src/service.rs:1946-2016 | likewise, with all refusals in order and bits cut to those the caller may grant |
| `Service.DomainService.DeleteRole` | crates/domain/src/service.rs:2018-2046 | likewise, with the cascade to assignments and grants |
| `Service.DomainService.ReorderRoles` | crates/domain/src/service.rs:2051-2100 | validation, the check of every old and new position, then the writes, equal the transition |
| `Service.DomainService.WritePositions` | crates/domain/src/service.rs:2089-2096 | writing positions first role first yields the repositioned roles |
| `Service.DomainService.SetMemberRoles` | crates/domain/src/service.rs:2105-2182 | the replaced assignments and the answer are those of the transition |
| `Service.DomainService.CheckRoleChange` | crates/domain/src/service.rs:2141-2171 | which of the four answers comes back, each exactly when, independent of set order |
| `Service.DomainService.ReplaceAssignments` | crates/domain/src/service.rs:2173-2180 | clearing and inserting one by one leaves exactly the new set |
| `Service.DomainService.JoinViaInvite` | crates/domain/src/service.rs:1797-1843 | likewise: a banned or present account is refused, otherwise it becomes a member without roles |
| `Service.DomainService.KickMember` | crates/domain/src/service.rs:2231-2259 | new state and answer of the transition, and of `Answers` and `Effects`: self, gate, owner and rank refusals in order, the target's row gone and no other changed |
| `Service.DomainService.BanMember` | crates/domain/src/service.rs:2264-2314 | likewise, with the ban recorded as the membership goes |
| `Service.DomainService.RequireAccess` | crates/domain/src/service.rs:3178-3238 | the gate's answer, errors included, and that is who sees the channel by the rows |
| `Service.DomainService.ListChannels` | crates/domain/src/service.rs:575-659 | of the rows the query returns, exactly those the caller sees by the rows, in the order of the query |
| `Service.DomainService.ChannelViewerAccountIds` | crates/domain/src/service.rs:1046-1126 | exactly the accounts that see the channel by the rows, stored masks included, or not found |
| `Service.DomainService.AccessibleChannelIds` | crates/domain/src/service.rs:2969-2989 | never fails, and returns exactly the channels the account sees by the rows |
| `Service.DomainService.DeleteChannel` | crates/domain/src/service.rs:741-803 | checks, snapshots of target and threads, and soft deletion equal the transition |
| `Service.DomainService.SnapshotAndDelete` | crates/domain/src/service.rs:778-799 | writing snapshots one row after the other, in any order, gives each row what it had before the deletion |
| `Service.DomainService.ListPublicThreads` | crates/domain/src/service.rs:1438-1468 | exactly the listed threads, in the order of the query |
| `Voice.SameSeats` | crates/realtime/src/hub.rs:35-44 | without empty rooms the nested map is determined by who is in which call on which connection |
| `Voice.SeatedKeeps` | crates/realtime/src/hub.rs:470-480 | inserting a registered connection keeps one room per account when no other room holds it |
| `HubService.Hub.Register` | crates/realtime/src/hub.rs:74-103 | a fresh handle at the end of the account's list; online exactly on the first |
| `HubService.Hub.Unregister` | crates/realtime/src/hub.rs:105-130 | afterwards no call holds the connection, other connections keep theirs, the list loses exactly it, offline exactly on the last |
| `HubService.Hub.VoiceJoin` | crates/realtime/src/hub.rs:462-485 | the account is in this call on this connection and in no other; everyone else stays; the peers are who was there |
| `HubService.Hub.VoiceLeave` | crates/realtime/src/hub.rs:513-536 | the account leaves its call if the handle matches, nobody else moves, in whatever order rooms are walked |
| `HubService.Hub.VoiceLeaveFromChannel` | crates/realtime/src/hub.rs:561-575 | the account leaves that one call only |
| `HubService.Hub.VoiceChannelOf` | crates/realtime/src/hub.rs:610-616 | the call the account is in, if any |
| `HubService.Hub.VoiceLeaveIfInServer` | crates/realtime/src/hub.rs:632-672 | without interference, the account leaves its call exactly when the lookup does not say no |
| `HubService.Hub.VoiceRelay` | crates/realtime/src/hub.rs:679-698 | a signal goes out exactly when both share a call, to the registered connection the receiver joined with |
| `HubService.Hub.VoiceRosters` | crates/realtime/src/hub.rs:596-607 | exactly the asked channels that have a call, with exactly their participants |
| `HubService.Hub.PresenceSnapshot` | crates/realtime/src/hub.rs:140-153 | an entry per account asked about, online exactly when it has a connection |
| `Gateway.Serve` | crates/api/src/gateway.rs:66-179 | over any run of socket events and evictions the hub means the flat world: the same sockets open, each account in at most one call, on the socket that joined it |
| `Gateway.CallsOnOpenSockets` | crates/api/src/gateway.rs:126-149 | a call never outlives the socket that joined it |
| `Gateway.InCallExactlyWhenJoined` | crates/api/src/gateway.rs:118-150 | an account is in a call on a socket exactly when that socket joined it, with leave, and since then the account has not joined another, left, been evicted or lost the socket |
| `Gateway.SocketsTell` | crates/api/src/gateway.rs:66-179 | connecting opens one socket, closing closes one, and nothing else opens or closes any |
| `HubLocks.EvictionIsScoped` | crates/realtime/src/hub.rs:632-672 | under every interleaving an eviction from a server removes at most the account's seat in the channel it first read, after the database placed that channel in the server or failed to answer |
| `HubLocks.RegionDoes` | crates/realtime/src/hub.rs:462-672 | seat by seat and connection by connection, what each lock region changes |
| `HubLocks.PresenceAlternates` | crates/realtime/src/hub.rs:81-95 | under every interleaving the announcements about an account alternate from online, and it has connections exactly when the last was online |
| `HubLocks.TurnsKeepOneRoom` | crates/realtime/src/hub.rs:468-480 | when joins of one account take turns, every interleaving keeps one room per account, no empty room, and every stored handle a registered connection of its account |
| `HubLocks.InsertKeepsOneRoom` | crates/realtime/src/hub.rs:470-480 | the insert leaves the account in one room exactly when no other room holds it then |
| `HubLocks.OneRoomExactlyWithoutSecondInserts` | crates/realtime/src/hub.rs:455-480 | a run keeps an account in one room throughout exactly when no insert runs while another room holds it |
| `HubLocks.SeatsStayHeldExactlyWhen` | crates/realtime/src/hub.rs:105-130 | a step keeps every seat a registered connection of its account exactly when it neither drops a connection some call still seats nor seats one that is not registered |
| `HubLocks.SeatsHeldExactlyWithoutStranding` | crates/realtime/src/hub.rs:462-485 | the same over whole runs of interleaved calls |
| `HubLocks.RacingJoinsLeaveAGhost` | crates/realtime/src/hub.rs:462-480 | a run with two racing joins that ends with nobody connected and the account still in a call |
| `Expulsions.OverstaysExactlyWhen` | crates/realtime/src/hub.rs:618-672 | a step leaves an expelled account in a call of the server, with no eviction left to take it out, exactly when it seats an overtaken join there, turns an eviction to another call, or answers no for the server's own channel |
| `Expulsions.ExpelledLeaveExactlyWhen` | crates/api/src/gateway.rs:126-137 | the same over whole runs of joins, expulsions and anything else in the hub |
| `Expulsions.ExpelledLeave` | crates/realtime/src/hub.rs:336-354 | the eviction does its work in every run where no expulsion overtakes an authorized join, the account is in one call at a time and the lookup knows the server's channels |
| `Expulsions.KickedAccountStaysInCall` | crates/api/src/gateway.rs:126-137 | a run with a kick between authorization and join that ends with nothing in flight and the account in the call |
| `Sessions.RevivesExactlyOnIdleTouch` | crates/auth/src/service.rs:1027-1066 | a session that stopped counting counts again after a step exactly when a touch lands after its idle window closed |
| `Sessions.IneligibleForever` | crates/auth/src/service.rs:63-69 | revoked, absolutely expired or idle: along any run without a late touch it never counts again |
| `Sessions.RevokingEnds` | crates/auth/src/service.rs:1086-1108 | after a revocation the account's row counts at no time, another account's is not touched, and every other row is as it was |
| `Sessions.RevokingAllEnds` | crates/auth/src/service.rs:1110-1120 | after revoking all, no session of the account counts at any time and every other row is as it was |
| `Sessions.RevokedForever` | crates/auth/src/service.rs:1027-1066 | along any run, late touches included, a revoked session never counts again, so that no verification finds it |
| `Sessions.NeverPastNinetyDays` | crates/auth/src/service.rs:63-69 | whatever the run, a session does not count ninety days after the login that made it began |
| `Sessions.UseExtends` | crates/auth/src/service.rs:1027-1066 | a verification that finds the session keeps it for fourteen days less five minutes, and not beyond fourteen days |
| `Sessions.FreshSessionLasts` | crates/auth/src/service.rs:970-1025 | a session just made counts exactly until fourteen days without use have passed |
| `Sessions.PassesFourExactlyWhen` | crates/auth/src/service.rs:970-1025 | a step takes an account past four counting sessions exactly when it commits a counting one, or touches an idle one, while four count |
| `Sessions.CapHoldsExactlyWhen` | crates/auth/src/service.rs:970-1066 | for every run from an empty table, at most four sessions of an account count at every moment exactly when no step does that |
| `Sessions.AtMostFour` | crates/auth/src/service.rs:970-1025 | the count inside the login suffices: every run in which an account ever has more than four counting sessions has a late touch, however logins interleave around the row lock and whatever the age of their transaction clock |
| `Sessions.AtomicIsTimely` | crates/auth/src/service.rs:1027-1066 | verifications that read and touch at one moment have no late touch |
| `Sessions.EarlierCountsMore` | crates/auth/src/service.rs:977-995 | counting at the transaction's start never undercounts |
| `Sessions.SplitVerifyBreaksCap` | crates/auth/src/service.rs:1027-1066 | a run with a pause between select and touch that ends with five |
| `Lockout.RowCountsStreak` | crates/auth/src/service.rs:932-968 | the counter is the failures since the last success, and the lock runs from the last failure once there are five |
| `Lockout.GetsInExactlyWhen` | crates/auth/src/service.rs:932-968 | an attempt gets in exactly when the password matches and it does not come within fifteen minutes of the previous one after five failures in a row |
| `Lockout.NoPauseNoEntry` | crates/auth/src/service.rs:938-942 | without a pause of fifteen minutes no later attempt gets in |
| `Lockout.FiveWrongLockOut` | crates/auth/src/service.rs:932-968 | after five or more wrong passwords in a row the right one gets in exactly when fifteen minutes have passed since the last, after fewer at once |
| `Lockout.InOneGo` | crates/auth/src/service.rs:895-968 | a login that no other one overtakes is the single step of the statements above |
| `Lockout.RowCountsRecorded` | crates/auth/src/service.rs:938-968 | however logins overlap, the columns are the failures recorded since the last recorded success and the lock they call for |
| `Lockout.DecidesByItsRead` | crates/auth/src/service.rs:903-936 | however logins overlap, one gets in exactly when its password matches and the outcomes recorded before its read put no lock in force |
| `Lockout.PassesLockExactlyWhen` | crates/auth/src/service.rs:903-936 | a login gets in under a lock exactly when the outcomes recorded since its read brought the lock about |
| `Lockout.OvertakingLoginPassesLock` | crates/auth/src/service.rs:903-968 | a run in which that happens and the success lifts the lock |
| `Registration.AtMostFiveGuesses` | crates/auth/src/service.rs:494-513 | a code meets at most five wrong guesses, with the fifth its row is gone, and a burned code made no account |
| `Registration.AccountsComeFromCodes` | crates/auth/src/service.rs:468-530 | every account came from the code last issued to its address, unburned and issued under fifteen minutes before the verification began, and mailed unless an insert kept its mail back |
| `Registration.VerifyAnswers` | crates/auth/src/service.rs:468-530 | done exactly when the call made the account, under the name of its row; invalid exactly when no live row or another code was there; name taken in the remaining case |
| `Registration.WrongGuessCosts` | crates/auth/src/service.rs:494-513 | a wrong code costs the live row one of its five guesses, the fifth the row, and changes nothing else |
| `Registration.RegisterAnswers` | crates/auth/src/service.rs:219-371 | a registration in one go, by the rows: which of three answers, the row it leaves, the expired ones it clears, and that it changes nothing where it is refused or not delivered |
| `Registration.ResendAnswers` | crates/auth/src/service.rs:379-428 | likewise for a resend |
| `Registration.InsertAnswers` | crates/auth/src/service.rs:302-371 | likewise for the last statements of a registration in flight, by its transaction's clock |
| `Registration.PurgeClears` | crates/auth/src/service.rs:536-544 | purging takes exactly the rows expired when it began |
| `Registration.NamesStayUnique` | crates/auth/src/service.rs:575-620 | in every state of every run no two accounts have one name, and an account once made stays |
| `Registration.CooldownMeansMailedRecently` | crates/auth/src/service.rs:438-459 | the test on the expiry says exactly that the row's code comes from a transaction begun less than a minute ago, and where calls are done in one go that it was mailed then |
| `Registration.SoonMailsExactlyWhen` | crates/auth/src/service.rs:219-428 | within a minute of a mail another goes out exactly when the guards let it, and then because the row was burned, promoted with a registration in flight, written since a resend tested it, or predated by its transaction |
| `Registration.MailsAreSpaced` | crates/auth/src/service.rs:379-428 | along any run, registrations and resends overlapping at will, two mails to an address less than a minute apart have one of those causes; where calls are done in one go, a burned row |
| `Registration.GapKeptExactlyWhen` | crates/auth/src/service.rs:284-428 | over any run, overlapping resends included, the gap of a minute is kept exactly when no call whose guards let its mail through comes within a minute of a mail |
| `Registration.MailsExactlyWhen` | crates/auth/src/service.rs:219-428 | in every state, which calls mail: a registration in one go by what the log says of the address, an insert and an update in flight by the row as it is then |
| `Registration.RegisterIsItsStatements` | crates/auth/src/service.rs:219-371 | a registration in one go is its six statements with nothing in between, rows, mails and answer |
| `Registration.ResendIsItsStatements` | crates/auth/src/service.rs:379-428 | likewise for a resend |
| `Registration.TransactionMails` | crates/auth/src/service.rs:292-371 | where no row is live the cooldown is over, and a transaction that nothing overtakes mails exactly when the name is not reserved and the mailer takes the mail |
| `Registration.WithholdsExactlyWhen` | crates/auth/src/service.rs:292-371 | a code is issued without a mail exactly by an insert whose cooldown test saw a row that is gone by now, never by a call in one go |
| `Registration.CodeKeptBack` | crates/auth/src/service.rs:292-371 | a run in which that leaves a live row whose code nobody received |
| `Registration.ResendRevivesExactlyWhen` | crates/auth/src/service.rs:399-428 | where no row is live, a resend mails and makes one live exactly when an expired row is still there |
| `Registration.ExpiredRowComesBack` | crates/auth/src/service.rs:374-406 | a run in which that happens |
| `Registration.BurnForgetsCooldown` | crates/auth/src/verification.rs:28-36 | a run with two mails to one address at the same moment |
| `Registration.TwoTabsForgetCooldown` | crates/auth/src/service.rs:248-300 | a run with two registrations in flight that mails twice within two seconds, the second time to an address that has its account |
| `Registration.OverlappingResendsForgetCooldown` | crates/auth/src/service.rs:379-428 | a run in which two resends test before either has written, and both mail at one moment |
| `Registration.SlowMailShortensCooldown` | crates/auth/src/service.rs:399-426 | a run in which a resend takes fifty seconds and the next one mails ten seconds after it |
| `Auth.AuthService.Login` | crates/auth/src/service.rs:895-1025 | throttle, session row and answer, all three in terms of the two state machines; the cap and the ledger hold |
| `Auth.AuthService.VerifySession` | crates/auth/src/service.rs:1027-1066 | the account exactly when the session counts; the last use is written exactly when it is more than five minutes old, and nothing else is |
| `Auth.AuthService.RevokeSession` | crates/auth/src/service.rs:1086-1108 | the account's own row ends, every other row is as it was, and the answer says whether an unrevoked one was there |
| `Auth.AuthService.RevokeAllSessions` | crates/auth/src/service.rs:1110-1120 | every session of the account ends, every other row is as it was |
| `Auth.AuthService.Register` | crates/auth/src/service.rs:219-371 | rows, mails and answer of a registration in one go, rolled back when the mail is not delivered; ledger and sessions stay sound |
| `Auth.AuthService.ResendVerificationCode` | crates/auth/src/service.rs:379-428 | likewise for a resend, with its rollback |
| `Auth.AuthService.VerifyRegistration` | crates/auth/src/service.rs:468-530 | rows and answer of a guess, counted, burned with the fifth, or promoted; done exactly when the account was made, invalid exactly without a live row of that code |
| `Pairs.OneRowPerPair` | crates/domain/src/service.rs:1501-1553 | any number of racing calls leave at most one direct message channel and one canonical friendship row per unordered pair |
| `Friends.BothAskedMeansFriends` | crates/domain/src/service.rs:1616-1672 | from the steps of the run: when each of two accounts asked for the other and both calls ran to their end, with nothing parting them since the first started, the pair has an accepted row, whatever raced with what |
| `Friends.FriendsHaveBothAsked` | crates/domain/src/service.rs:1639-1672 | two accounts are friends only if each of them started a request to the other |
| `Friends.DmCallsLeaveAChannel` | crates/domain/src/service.rs:1475-1553 | once a call to open a direct message has ended the two have a channel, ever after |
| `Friends.PartingParts` | crates/domain/src/service.rs:1693-1764 | removing and blocking leave no row of the pair, and a block refuses the calls of either from then on |
| `Friends.CallsStartUnlessBlocked` | crates/domain/src/service.rs:1793-1795 | a request or a direct message starts exactly when neither of the two blocks the other |
| `Blocks.OnlyLateInsertsBefriendBlocked` | crates/domain/src/service.rs:1721-1764 | a blocked pair gets a friendship row exactly when a request inserts after its own check went stale |
| `Blocks.BlocksHoldExactlyWithoutLateInserts` | crates/domain/src/service.rs:1626-1764 | over any run of racing calls a pair is never blocked and befriended at once exactly when no such insert happens |
| `Blocks.BlockCanBeOvertaken` | crates/domain/src/service.rs:1626-1660 | a run in which that happens |
| `Blocks.OnlyLateInsertsOpenBlockedDms` | crates/domain/src/service.rs:1491-1545 | a step opens a direct message for a blocked pair exactly when a call inserts after its own check went stale |
| `Blocks.DmsRespectBlocksExactlyWhen` | crates/domain/src/service.rs:1491-1545 | the same over any run of racing calls |
| `Blocks.BlockedPairGetsDm` | crates/domain/src/service.rs:1494-1545 | a run in which that happens |
| `Profiles.GetProfilesBulk` | crates/db/src/profile.rs:115-158 | grouping the joined rows yields the existing profiles with all their links in order, in request order, duplicates included |
| `Profiles.GroupsAll` | crates/db/src/profile.rs:94-158 | the grouping of the query's rows, for every table and every request |
| `Profiles.ProfilesInOrder` | crates/db/src/profile.rs:115-158 | one profile for each requested id that exists, in request order, with all its columns |
| `Profiles.ContextSays` | crates/domain/src/service.rs:3040-3096 | one context, by the rows: friends exactly when an accepted row joins the two, and for each side whether it blocks the other |
| `Profiles.FriendsAgree` | crates/domain/src/service.rs:3124-3135 | the caller's friend set and the pair lookup agree because rows are canonical |
| `Profiles.BulkRefines` | crates/domain/src/service.rs:3117-3168 | the bulk contexts are the single contexts of the ids that exist |
| `Profiles.GetProfileContextsBulk` | crates/domain/src/service.rs:3040-3096 | the same for every state any run of requests, removals and blocks reaches |
| `Pagination.NextPageContinues` | crates/db/src/message.rs:89-107 | the page after a full one begins exactly where it ended |
| `Pagination.PageHoldsTheNewest` | crates/db/src/message.rs:89-107 | a page holds messages older than the cursor, newest first, at most the limit, 50 or 100; it leaves one out only if it is full and that one is older than all it holds |
| `Pagination.WalkIsComplete` | crates/api/src/handlers.rs:894-924 | following cursors ends and yields every message once, newest first, exactly when the limit is not 0 or there is nothing to list |
| `Pagination.OneListing` | crates/db/src/message.rs:95-101 | a set of messages has one descending listing |
| `Text.Slugify` | crates/domain/src/validation.rs:125-148 | the scanner yields the lower-cased words joined by single hyphens, cut at 80, or the fallback |
| `Text.SlugIsShaped` | crates/domain/src/validation.rs:112-148 | 1 to 80 lower-case letters, digits and single hyphens, none in front, for every title |
| `Text.SlugKeepsLetters` | crates/domain/src/validation.rs:125-148 | position by position: letters and digits are kept in lower case, and one hyphen for what stands between two of them; then the cut and the fallback |
| `Text.TrailingHyphenExactlyWhen` | crates/domain/src/validation.rs:138-141 | it ends in a hyphen exactly when the cut falls right after one |
| `Text.TrailingHyphenHappens` | crates/domain/src/validation.rs:138-141 | a title for which it does |
| `Text.TrimIsRedundant` | crates/domain/src/validation.rs:128 | stripping white space first changes no slug |
| `Text.ExtractMentionTokens` | crates/domain/src/validation.rs:160-181 | the scanner yields the token after every `@`, each once, where first seen |
| `Text.TokensAreMentions` | crates/domain/src/validation.rs:160-181 | a token is extracted exactly if somewhere in the text an `@` is followed by it, in whatever case, and by no further token character |
| `Text.TokensAreMentioned` | crates/domain/src/validation.rs:154-181 | every extracted token is mentioned in the text, non-empty and well formed |
| `Text.TokensInFirstSeenOrder` | crates/domain/src/validation.rs:160-181 | tokens are distinct and in the order the text first mentions them |
| `Text.SlugRoundTrip` | crates/domain/src/service.rs:2799-2806 | mentioning a slug names exactly that slug |

## Left out

- HTTP routing, request shapes, error mapping, rate limits, rendering, mail delivery, storage, hashing and random generation: codes and new ids are arguments, and two codes match when they are equal.
- Validators of names, titles, colours and lengths, nicknames, display fields, channel names, channel positions and the group participant check: one-branch claims.
- Server exports, message contents, edits, pins, full-text ranking; of the search query only the restriction filter is modelled.
- Invite codes: a join names the server its code resolves to; regenerating codes is left out.
- `Service.DomainService` holds the operations with loops or several writes; the remaining ones (server creation and deletion, leave, unban, timeouts, channel and thread creation, visibility, restriction and grant edits, direct messages) are the functions of `Transitions` only.
- Service methods on the domain tables run one at a time; two calls racing on the role, roster or channel tables are not modelled. Interleavings are modelled for the hub, logins, direct messages and friend requests.
- Rows are fetched as sets where the code does not depend on their order, and viewer lists and rosters are returned as sets. The `ORDER BY` of the channel and public thread lists is the caller's: the model takes the ordered rows.
- Text order of identifiers, the 16-bit link position, the 32-bit counters of failed logins and guesses, and the microsecond rounding of timestamps: integers and reals stand for them.
- Usernames are compared in their normalized form and addresses in their canonical one; the normalization is not modelled.
- A statement that waits for a row takes effect when it gets it, and the last statements of a transaction (delete, insert, mail and commit of a registration, update, mail and commit of a resend, those of a verification or a block) are one step. A statement that finds its row replaced while it waited, a lost connection and any other end without an effect is `Registration.Abandon`; a commit that fails after its mail went out is not modelled.
- Hash collisions of advisory lock keys, which could only make unrelated pairs wait for each other.
- Delivery and order of published frames, which the hub documents as best effort; the model says which region announces what.
- Profile visibility decisions: a finite table.
- Gateway.Serve: each hub call of a socket runs without interference from other calls; the interleaved hub is `HubLocks`.
- Auth.AuthService.Register: runs checks and transaction in one go; `Registration` also has its statements apart, with any call in between.
- Auth.AuthService.ResendVerificationCode: runs test and update in one go; `Registration` also has them apart, overlapping resends included.
- Auth.AuthService.Login: runs its lookups, throttle update and session transaction as one step; `Lockout` and `Sessions` also have their statements apart.
- Auth.AuthService.VerifySession: reads and touches at one moment; the split form is in `Sessions`.
