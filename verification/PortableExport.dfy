/** Records of a portable export: the projection that builds them, the loop that loads attachments
    and the validator that every export must pass before it is written.
 */
module PortableExport {
  import opened Events
  import opened Fingerprints
  import opened ArchiveNames

  type MessageId = string

  // ---------- records ----------

  datatype ChannelRecord = ChannelRecord(id: ChannelId, htmlPath: string)

  datatype MessageRecord = MessageRecord(id: MessageId, channel: ChannelId, deleted: bool, attachmentIds: seq<string>)

  datatype Availability = Pending | Included | ExcludedDeleted | Unavailable(reason: string)

  datatype AttachmentRecord = AttachmentRecord(
    id: string, message: MessageId, channel: ChannelId, index: nat,
    availability: Availability, path: Option<string>, digest: Option<string>)

  datatype Records = Records(
    channels: seq<ChannelRecord>, members: seq<DeviceId>,
    messages: seq<MessageRecord>, attachments: seq<AttachmentRecord>)

  // ---------- what a well-formed export is ----------

  ghost predicate ChannelsOk(channels: seq<ChannelRecord>) {
    forall i, j :: 0 <= i < j < |channels| ==>
      channels[i].id != channels[j].id && channels[i].htmlPath != channels[j].htmlPath
  }

  predicate HasChannel(channels: seq<ChannelRecord>, id: ChannelId) {
    exists i :: 0 <= i < |channels| && channels[i].id == id
  }

  ghost predicate MessagesOk(messages: seq<MessageRecord>, channels: seq<ChannelRecord>) {
    && (forall i :: 0 <= i < |messages| ==>
          HasChannel(channels, messages[i].channel) && NoDuplicates(messages[i].attachmentIds))
    && (forall i, j :: 0 <= i < j < |messages| ==> messages[i].id != messages[j].id)
  }

  /** The attachment belongs to an exported message of the same channel, and its path and digest
      are present exactly when it is included. */
  ghost predicate AttachmentOk(a: AttachmentRecord, messages: seq<MessageRecord>) {
    && (exists m :: m in messages && m.id == a.message && m.channel == a.channel)
    && (a.availability.Included? ==> a.path.Some? && a.digest.Some?)
    && (!a.availability.Included? ==> a.path.None? && a.digest.None?)
  }

  predicate Clash(a: AttachmentRecord, b: AttachmentRecord) {
    a.id == b.id || (a.availability.Included? && b.availability.Included? && a.path == b.path)
  }

  ghost predicate AttachmentsOk(attachments: seq<AttachmentRecord>, messages: seq<MessageRecord>) {
    && (forall i :: 0 <= i < |attachments| ==> AttachmentOk(attachments[i], messages))
    && (forall i, j :: 0 <= i < j < |attachments| ==> !Clash(attachments[i], attachments[j]))
  }

  function RecordIds(attachments: seq<AttachmentRecord>, m: MessageId): set<string> {
    set a | a in attachments && a.message == m && !a.availability.ExcludedDeleted? :: a.id
  }

  function Referenced(m: MessageRecord): set<string> {
    set id | id in m.attachmentIds
  }

  ghost predicate ReferencesOk(messages: seq<MessageRecord>, attachments: seq<AttachmentRecord>) {
    forall i :: 0 <= i < |messages| ==> Referenced(messages[i]) == RecordIds(attachments, messages[i].id)
  }

  ghost predicate WellFormed(r: Records) {
    && ChannelsOk(r.channels)
    && NoDuplicates(r.members)
    && MessagesOk(r.messages, r.channels)
    && AttachmentsOk(r.attachments, r.messages)
    && ReferencesOk(r.messages, r.attachments)
  }

  // ---------- the validator ----------

  method ValidateChannels(channels: seq<ChannelRecord>) returns (ok: bool, ids: set<ChannelId>)
    ensures ok <==> ChannelsOk(channels)
    ensures ok ==> forall id :: id in ids <==> HasChannel(channels, id)
  {
    ids := {};
    var paths: set<string> := {};
    var i := 0;
    while i < |channels|
      invariant 0 <= i <= |channels|
      invariant ChannelsOk(channels[..i])
      invariant ids == (set j | 0 <= j < i :: channels[j].id) && paths == set j | 0 <= j < i :: channels[j].htmlPath
    {
      if channels[i].id in ids || channels[i].htmlPath in paths {
        return false, ids;
      }
      ids, paths := ids + {channels[i].id}, paths + {channels[i].htmlPath};
      i := i + 1;
    }
    assert channels[..i] == channels;
    ok := true;
  }

  method ValidateMembers(members: seq<DeviceId>) returns (ok: bool)
    ensures ok <==> NoDuplicates(members)
  {
    var seen: set<DeviceId> := {};
    var i := 0;
    while i < |members|
      invariant 0 <= i <= |members|
      invariant NoDuplicates(members[..i]) && seen == set j | 0 <= j < i :: members[j]
    {
      if members[i] in seen {
        return false;
      }
      seen := seen + {members[i]};
      i := i + 1;
    }
    assert members[..i] == members;
    ok := true;
  }

  method ValidateMessages(messages: seq<MessageRecord>, channels: seq<ChannelRecord>, ids: set<ChannelId>)
    returns (ok: bool, byId: map<MessageId, MessageRecord>)
    requires forall id :: id in ids <==> HasChannel(channels, id)
    ensures ok <==> MessagesOk(messages, channels)
    ensures ok ==> Indexes(byId, messages)
  {
    byId := map[];
    var i := 0;
    while i < |messages|
      invariant 0 <= i <= |messages|
      invariant MessagesOk(messages[..i], channels)
      invariant Indexes(byId, messages[..i])
    {
      var m := messages[i];
      assert messages[..i + 1] == messages[..i] + [m];
      if m.channel !in ids {
        return false, byId;
      }
      if m.id in byId {
        return false, byId;
      }
      var distinct := ValidateMembers(m.attachmentIds);
      if !distinct {
        return false, byId;
      }
      byId := byId[m.id := m];
      i := i + 1;
    }
    assert messages[..i] == messages;
    ok := true;
  }

  ghost predicate Indexes(byId: map<MessageId, MessageRecord>, messages: seq<MessageRecord>) {
    && (forall m :: m in messages ==> m.id in byId)
    && (forall id :: id in byId ==> byId[id] in messages && byId[id].id == id)
  }

  /** An indexed message is the only one with its id. */
  lemma OnlyMessage(byId: map<MessageId, MessageRecord>, messages: seq<MessageRecord>, m: MessageRecord)
    requires Indexes(byId, messages) && m in messages
    requires forall i, j :: 0 <= i < j < |messages| ==> messages[i].id != messages[j].id
    ensures byId[m.id] == m
  {
    var i :| 0 <= i < |messages| && messages[i] == m;
    var j :| 0 <= j < |messages| && messages[j] == byId[m.id];
  }

  method ValidateAttachment(a: AttachmentRecord, messages: seq<MessageRecord>, byId: map<MessageId, MessageRecord>)
    returns (ok: bool)
    requires Indexes(byId, messages)
    requires forall i, j :: 0 <= i < j < |messages| ==> messages[i].id != messages[j].id
    ensures ok <==> AttachmentOk(a, messages)
  {
    forall m | m in messages && m.id == a.message ensures byId[a.message] == m {
      OnlyMessage(byId, messages, m);
    }
    if a.message !in byId || a.channel != byId[a.message].channel {
      return false;
    }
    ok := if a.availability.Included? then a.path.Some? && a.digest.Some? else a.path.None? && a.digest.None?;
  }

  method ValidateAttachments(attachments: seq<AttachmentRecord>, messages: seq<MessageRecord>,
                             byId: map<MessageId, MessageRecord>) returns (ok: bool)
    requires Indexes(byId, messages)
    requires forall i, j :: 0 <= i < j < |messages| ==> messages[i].id != messages[j].id
    ensures ok <==> AttachmentsOk(attachments, messages)
  {
    var ids: set<string>, paths: set<string> := {}, {};
    var i := 0;
    while i < |attachments|
      invariant 0 <= i <= |attachments|
      invariant AttachmentsOk(attachments[..i], messages)
      invariant ids == set j | 0 <= j < i :: attachments[j].id
      invariant paths == set j | 0 <= j < i && attachments[j].availability.Included? && attachments[j].path.Some?
                           :: attachments[j].path.value
    {
      var a := attachments[i];
      if a.id in ids {
        var j :| 0 <= j < i && attachments[j].id == a.id;
        assert Clash(attachments[j], attachments[i]);
        return false;
      }
      var sound := ValidateAttachment(a, messages, byId);
      if !sound {
        return false;
      }
      if a.availability.Included? {
        if a.path.value in paths {
          var j :| 0 <= j < i && attachments[j].availability.Included? && attachments[j].path.Some?
                   && attachments[j].path.value == a.path.value;
          assert Clash(attachments[j], attachments[i]);
          return false;
        }
        paths := paths + {a.path.value};
      }
      forall j | 0 <= j < i ensures !Clash(attachments[j], a) {
        assert AttachmentOk(attachments[..i][j], messages);
      }
      ids := ids + {a.id};
      AttachmentsExtend(attachments, i, messages);
      i := i + 1;
    }
    assert attachments[..i] == attachments;
    ok := true;
  }

  lemma AttachmentsExtend(attachments: seq<AttachmentRecord>, i: nat, messages: seq<MessageRecord>)
    requires i < |attachments| && AttachmentsOk(attachments[..i], messages) && AttachmentOk(attachments[i], messages)
    requires forall j :: 0 <= j < i ==> !Clash(attachments[j], attachments[i])
    ensures AttachmentsOk(attachments[..i + 1], messages)
  {
    assert attachments[..i + 1] == attachments[..i] + [attachments[i]];
  }

  method ValidateReferences(messages: seq<MessageRecord>, attachments: seq<AttachmentRecord>) returns (ok: bool)
    ensures ok <==> ReferencesOk(messages, attachments)
  {
    var i := 0;
    while i < |messages|
      invariant 0 <= i <= |messages|
      invariant forall j :: 0 <= j < i ==> Referenced(messages[j]) == RecordIds(attachments, messages[j].id)
    {
      if Referenced(messages[i]) != RecordIds(attachments, messages[i].id) {
        return false;
      }
      i := i + 1;
    }
    ok := true;
  }

  /** The validator accepts exactly the well-formed exports. */
  method Validate(r: Records) returns (ok: bool)
    ensures ok <==> WellFormed(r)
  {
    var ids, byId;
    ok, ids := ValidateChannels(r.channels);
    if !ok { return; }
    ok := ValidateMembers(r.members);
    if !ok { return; }
    ok, byId := ValidateMessages(r.messages, r.channels, ids);
    if !ok { return; }
    ok := ValidateAttachments(r.attachments, r.messages, byId);
    if !ok { return; }
    ok := ValidateReferences(r.messages, r.attachments);
  }

  // ---------- the projection ----------

  /** A materialized message; `authored` says that its creating event is among the applied ones. */
  datatype Message = Message(channel: ChannelId, authored: bool, deleted: bool, names: seq<string>)

  datatype State = State(
    channels: map<ChannelId, string>, readable: set<ChannelId>,
    messages: map<MessageId, Message>, actors: set<DeviceId>)

  predicate Exported(s: State, m: MessageId) {
    m in s.messages && s.messages[m].channel in s.readable && s.messages[m].authored
  }

  predicate HasAttachment(s: State, m: MessageId, i: nat) {
    Exported(s, m) && i < |s.messages[m].names|
  }

  /** Readable channels exist, and lengths and positions fit in eight bytes. */
  ghost predicate StateOk(s: State) {
    && s.readable <= s.channels.Keys
    && (forall m :: m in s.messages ==>
          |m| < Pow256(Width) && |s.messages[m].channel| < Pow256(Width) && |s.messages[m].names| <= Pow256(Width))
  }

  function PageOf(s: State, hex: Hex, c: ChannelId): string
    requires c in s.channels
  {
    ChannelPath(hex, s.channels[c], c)
  }

  function ChannelOf(s: State, hex: Hex, c: ChannelId): ChannelRecord
    requires c in s.channels
  {
    ChannelRecord(c, PageOf(s, hex, c))
  }

  function IdOf(s: State, hex: Hex, m: MessageId, i: nat): string
    requires Exported(s, m)
  {
    AttachmentId(hex, s.messages[m].channel, m, i)
  }

  function InputOf(s: State, m: MessageId, i: nat): seq<int>
    requires Exported(s, m)
  {
    AttachmentInput(s.messages[m].channel, m, i)
  }

  function IdsOf(s: State, hex: Hex, m: MessageId): (ids: seq<string>)
    requires Exported(s, m)
    ensures |ids| == |s.messages[m].names| && forall i :: 0 <= i < |ids| ==> ids[i] == IdOf(s, hex, m, i)
  {
    seq(|s.messages[m].names|, i requires 0 <= i < |s.messages[m].names| => IdOf(s, hex, m, i))
  }

  function MessageOf(s: State, hex: Hex, m: MessageId): MessageRecord
    requires Exported(s, m)
  {
    var v := s.messages[m];
    MessageRecord(m, v.channel, v.deleted, if v.deleted then [] else IdsOf(s, hex, m))
  }

  function AttachmentsOfMessage(s: State, hex: Hex, m: MessageId): (r: seq<AttachmentRecord>)
    requires Exported(s, m)
    ensures |r| == |s.messages[m].names| && forall i :: 0 <= i < |r| ==> r[i] == AttachmentOf(s, hex, m, i)
  {
    seq(|s.messages[m].names|, i requires 0 <= i < |s.messages[m].names| => AttachmentOf(s, hex, m, i))
  }

  function PathOf(s: State, hex: Hex, m: MessageId, i: nat): string
    requires HasAttachment(s, m, i)
  {
    AttachmentPath(hex, s.messages[m].channel, m, i, s.messages[m].names[i])
  }

  function AttachmentOf(s: State, hex: Hex, m: MessageId, i: nat): AttachmentRecord
    requires HasAttachment(s, m, i)
  {
    var v := s.messages[m];
    AttachmentRecord(IdOf(s, hex, m, i), m, v.channel, i,
                     if v.deleted then ExcludedDeleted else Pending,
                     if v.deleted then None else Some(PathOf(s, hex, m, i)),
                     None)
  }

  ghost predicate ChannelsOf(s: State, hex: Hex, channels: seq<ChannelRecord>) {
    && (forall r :: r in channels ==> r.id in s.readable && r.id in s.channels && r == ChannelOf(s, hex, r.id))
    && (forall c :: c in s.readable ==> HasChannel(channels, c))
    && (forall i, j :: 0 <= i < j < |channels| ==> channels[i].id != channels[j].id)
  }

  ghost predicate MessagesOf(s: State, hex: Hex, messages: seq<MessageRecord>) {
    && (forall r :: r in messages ==> Exported(s, r.id) && r == MessageOf(s, hex, r.id))
    && (forall m :: Exported(s, m) ==> MessageOf(s, hex, m) in messages)
    && (forall i, j :: 0 <= i < j < |messages| ==> messages[i].id != messages[j].id)
  }

  predicate SamePlace(a: AttachmentRecord, b: AttachmentRecord) {
    a.message == b.message && a.index == b.index
  }

  ghost predicate AttachmentsOf(s: State, hex: Hex, attachments: seq<AttachmentRecord>) {
    && (forall r :: r in attachments ==> HasAttachment(s, r.message, r.index) && r == AttachmentOf(s, hex, r.message, r.index))
    && (forall m, i: nat :: HasAttachment(s, m, i) ==> AttachmentOf(s, hex, m, i) in attachments)
    && (forall i, j :: 0 <= i < j < |attachments| ==> !SamePlace(attachments[i], attachments[j]))
  }

  /** One record for every readable channel, actor, exported message and attachment. */
  ghost predicate ProjectionOf(s: State, hex: Hex, r: Records) {
    && ChannelsOf(s, hex, r.channels)
    && NoDuplicates(r.members) && (forall d :: d in r.members <==> d in s.actors)
    && MessagesOf(s, hex, r.messages)
    && AttachmentsOf(s, hex, r.attachments)
  }

  ghost predicate Lists<T(!new)>(order: seq<T>, all: set<T>) {
    NoDuplicates(order) && forall x :: x in order <==> x in all
  }

  method ProjectChannels(s: State, hex: Hex, order: seq<ChannelId>) returns (channels: seq<ChannelRecord>)
    requires StateOk(s) && Lists(order, s.readable)
    ensures ChannelsOf(s, hex, channels)
  {
    channels := [];
    var i := 0;
    while i < |order|
      invariant 0 <= i <= |order| && |channels| == i
      invariant forall j :: 0 <= j < i ==> order[j] in s.channels && channels[j] == ChannelOf(s, hex, order[j])
    {
      assert order[i] in s.readable;
      channels := channels + [ChannelOf(s, hex, order[i])];
      i := i + 1;
    }
    ChannelsListed(s, hex, order, channels);
  }

  lemma ChannelsListed(s: State, hex: Hex, order: seq<ChannelId>, channels: seq<ChannelRecord>)
    requires StateOk(s) && Lists(order, s.readable) && |channels| == |order|
    requires forall j :: 0 <= j < |order| ==> order[j] in s.channels && channels[j] == ChannelOf(s, hex, order[j])
    ensures ChannelsOf(s, hex, channels)
  {
    forall c | c in s.readable ensures HasChannel(channels, c) {
      var k :| 0 <= k < |order| && order[k] == c;
      assert channels[k].id == c;
    }
    forall r | r in channels ensures r.id in s.readable && r.id in s.channels && r == ChannelOf(s, hex, r.id) {
      var k :| 0 <= k < |channels| && channels[k] == r;
      assert order[k] in s.readable;
    }
    forall i, j | 0 <= i < j < |channels| ensures channels[i].id != channels[j].id {
      assert order[i] != order[j];
    }
  }

  lemma AppendOne<T>(before: seq<T>, all: seq<T>, i: nat)
    requires i < |all|
    ensures before + all[..i] + [all[i]] == before + all[..i + 1]
  {
  }

  lemma TakeAll<T>(s: seq<T>)
    ensures s[..|s|] == s
  {
  }

  /** The attachment records of one message, appended in order. */
  method ProjectMessage(s: State, hex: Hex, m: MessageId, before: seq<AttachmentRecord>)
    returns (r: MessageRecord, attachments: seq<AttachmentRecord>)
    requires Exported(s, m)
    ensures r == MessageOf(s, hex, m)
    ensures attachments == before + AttachmentsOfMessage(s, hex, m)
  {
    var v := s.messages[m];
    ghost var allIds, all := IdsOf(s, hex, m), AttachmentsOfMessage(s, hex, m);
    var ids: seq<string> := [];
    attachments := before;
    var i := 0;
    while i < |v.names|
      invariant 0 <= i <= |v.names|
      invariant attachments == before + all[..i]
      invariant ids == if v.deleted then [] else [] + allIds[..i]
    {
      AppendOne(before, all, i);
      AppendOne([], allIds, i);
      if !v.deleted {
        ids := ids + [IdOf(s, hex, m, i)];
      }
      attachments := attachments + [AttachmentOf(s, hex, m, i)];
      i := i + 1;
    }
    TakeAll(all);
    TakeAll(allIds);
    r := MessageRecord(m, v.channel, v.deleted, ids);
  }

  /** The message records of the messages in `done`, and of no others. */
  ghost predicate CoversMessages(s: State, hex: Hex, done: seq<MessageId>, messages: seq<MessageRecord>) {
    && (forall r :: r in messages ==> r.id in done && Exported(s, r.id) && r == MessageOf(s, hex, r.id))
    && (forall m :: m in done && Exported(s, m) ==> MessageOf(s, hex, m) in messages)
    && (forall i, j :: 0 <= i < j < |messages| ==> messages[i].id != messages[j].id)
  }

  ghost predicate CoversAttachments(s: State, hex: Hex, done: seq<MessageId>, attachments: seq<AttachmentRecord>) {
    && (forall r :: r in attachments ==>
          r.message in done && HasAttachment(s, r.message, r.index) && r == AttachmentOf(s, hex, r.message, r.index))
    && (forall m, i: nat :: m in done && HasAttachment(s, m, i) ==> AttachmentOf(s, hex, m, i) in attachments)
    && (forall i, j :: 0 <= i < j < |attachments| ==> !SamePlace(attachments[i], attachments[j]))
  }

  method ProjectMessages(s: State, hex: Hex, order: seq<MessageId>)
    returns (messages: seq<MessageRecord>, attachments: seq<AttachmentRecord>)
    requires Lists(order, s.messages.Keys)
    ensures MessagesOf(s, hex, messages) && AttachmentsOf(s, hex, attachments)
  {
    messages, attachments := [], [];
    var i := 0;
    while i < |order|
      invariant 0 <= i <= |order|
      invariant CoversMessages(s, hex, order[..i], messages)
      invariant CoversAttachments(s, hex, order[..i], attachments)
    {
      var m := order[i];
      assert order[..i + 1] == order[..i] + [m] && m !in order[..i];
      if Exported(s, m) {
        MessagesOneMore(s, hex, order[..i], m, messages);
        AttachmentsOneMore(s, hex, order[..i], m, attachments);
        var r;
        r, attachments := ProjectMessage(s, hex, m, attachments);
        messages := messages + [r];
      } else {
        SkipsOne(s, hex, order[..i], m, messages, attachments);
      }
      i := i + 1;
    }
    assert order[..i] == order;
  }

  lemma SkipsOne(s: State, hex: Hex, done: seq<MessageId>, m: MessageId, messages: seq<MessageRecord>,
                 attachments: seq<AttachmentRecord>)
    requires CoversMessages(s, hex, done, messages) && CoversAttachments(s, hex, done, attachments) && !Exported(s, m)
    ensures CoversMessages(s, hex, done + [m], messages) && CoversAttachments(s, hex, done + [m], attachments)
  {
  }

  lemma MessagesOneMore(s: State, hex: Hex, done: seq<MessageId>, m: MessageId, messages: seq<MessageRecord>)
    requires CoversMessages(s, hex, done, messages) && m !in done && Exported(s, m)
    ensures CoversMessages(s, hex, done + [m], messages + [MessageOf(s, hex, m)])
  {
    forall i | 0 <= i < |messages| ensures messages[i].id != m {
      assert messages[i] in messages;
    }
  }

  lemma AttachmentsOneMore(s: State, hex: Hex, done: seq<MessageId>, m: MessageId, before: seq<AttachmentRecord>)
    requires CoversAttachments(s, hex, done, before) && m !in done && Exported(s, m)
    ensures CoversAttachments(s, hex, done + [m], before + AttachmentsOfMessage(s, hex, m))
  {
    var tail := AttachmentsOfMessage(s, hex, m);
    var attachments := before + tail;
    assert forall i :: 0 <= i < |tail| ==> tail[i].message == m && tail[i].index == i;
    forall n, i: nat | n in done + [m] && HasAttachment(s, n, i)
      ensures AttachmentOf(s, hex, n, i) in attachments
    {
      if n == m {
        assert tail[i] in tail;
      } else {
        assert AttachmentOf(s, hex, n, i) in before;
      }
    }
    forall i, j | 0 <= i < j < |attachments|
      ensures !SamePlace(attachments[i], attachments[j])
    {
      if j >= |before| > i {
        assert attachments[i] in before && attachments[j] in tail;
      }
    }
  }

  // ---------- sorting ----------

  lemma {:induction false} CountsOnce<T, K>(s: seq<T>, key: T -> K, x: T)
    requires forall i, j :: 0 <= i < j < |s| ==> key(s[i]) != key(s[j])
    ensures multiset(s)[x] <= 1
  {
    if s != [] {
      var last := |s| - 1;
      CountsOnce(s[..last], key, x);
      assert s == s[..last] + [s[last]];
      assert x == s[last] ==> x !in s[..last];
    }
  }

  /** Keys that are pairwise distinct stay so in any order. */
  lemma DistinctKeysPermute<T, K>(s: seq<T>, t: seq<T>, key: T -> K)
    requires multiset(s) == multiset(t)
    requires forall i, j :: 0 <= i < j < |s| ==> key(s[i]) != key(s[j])
    ensures forall i, j :: 0 <= i < j < |t| ==> key(t[i]) != key(t[j])
  {
    forall i, j | 0 <= i < j < |t|
      ensures key(t[i]) != key(t[j])
    {
      CountsOnce(s, key, t[i]);
      if t[i] == t[j] {
        CountsTwice(t, i, j);
      } else {
        assert t[i] in multiset(s) && t[j] in multiset(s);
        var p :| 0 <= p < |s| && s[p] == t[i];
        var q :| 0 <= q < |s| && s[q] == t[j];
      }
    }
  }

  ghost predicate Permutes(r: Records, t: Records) {
    && multiset(r.channels) == multiset(t.channels)
    && multiset(r.members) == multiset(t.members)
    && multiset(r.messages) == multiset(t.messages)
    && multiset(r.attachments) == multiset(t.attachments)
  }

  lemma SameElements<T>(s: seq<T>, t: seq<T>, x: T)
    requires multiset(s) == multiset(t)
    ensures x in s <==> x in t
  {
    assert x in multiset(s) <==> x in multiset(t);
  }

  lemma SortedChannels(s: State, hex: Hex, a: seq<ChannelRecord>, b: seq<ChannelRecord>)
    requires ChannelsOf(s, hex, a) && multiset(a) == multiset(b)
    ensures ChannelsOf(s, hex, b)
  {
    forall r ensures r in a <==> r in b { SameElements(a, b, r); }
    ChannelIdsPermute(a, b);
    forall c | c in s.readable ensures HasChannel(b, c) {
      var i :| 0 <= i < |a| && a[i].id == c;
      assert a[i] in b;
    }
  }

  lemma ChannelIdsPermute(a: seq<ChannelRecord>, b: seq<ChannelRecord>)
    requires multiset(a) == multiset(b) && forall i, j :: 0 <= i < j < |a| ==> a[i].id != a[j].id
    ensures forall i, j :: 0 <= i < j < |b| ==> b[i].id != b[j].id
  {
    var key := (r: ChannelRecord) => r.id;
    DistinctKeysPermute(a, b, key);
    assert forall i, j :: 0 <= i < j < |b| ==> key(b[i]) != key(b[j]);
  }

  lemma SortedMessages(s: State, hex: Hex, a: seq<MessageRecord>, b: seq<MessageRecord>)
    requires MessagesOf(s, hex, a) && multiset(a) == multiset(b)
    ensures MessagesOf(s, hex, b)
  {
    forall r ensures r in a <==> r in b { SameElements(a, b, r); }
    DistinctKeysPermute(a, b, (r: MessageRecord) => r.id);
  }

  lemma SortedAttachments(s: State, hex: Hex, a: seq<AttachmentRecord>, b: seq<AttachmentRecord>)
    requires AttachmentsOf(s, hex, a) && multiset(a) == multiset(b)
    ensures AttachmentsOf(s, hex, b)
  {
    forall r ensures r in a <==> r in b { SameElements(a, b, r); }
    var place := (r: AttachmentRecord) => (r.message, r.index);
    assert forall i, j :: 0 <= i < j < |a| ==> SamePlace(a[i], a[j]) || place(a[i]) != place(a[j]);
    DistinctKeysPermute(a, b, place);
    forall i, j | 0 <= i < j < |b| ensures !SamePlace(b[i], b[j]) {
      assert place(b[i]) != place(b[j]);
    }
  }

  /** However the records are sorted, they remain a projection of the same state. */
  lemma SortingKeepsProjection(s: State, hex: Hex, r: Records, t: Records)
    requires ProjectionOf(s, hex, r) && Permutes(r, t)
    ensures ProjectionOf(s, hex, t)
  {
    SortedChannels(s, hex, r.channels, t.channels);
    SortedMessages(s, hex, r.messages, t.messages);
    SortedAttachments(s, hex, r.attachments, t.attachments);
    DistinctKeysPermute(r.members, t.members, (d: DeviceId) => d);
    forall d ensures d in r.members <==> d in t.members { SameElements(r.members, t.members, d); }
  }

  // ---------- loading attachments ----------

  datatype Load = Plaintext(digest: string) | Missing(reason: string) | Fails

  function Loaded(a: AttachmentRecord, load: Load): AttachmentRecord {
    if a.availability.ExcludedDeleted? then a
    else
      match load
      case Plaintext(d) => a.(availability := Included, digest := Some(d))
      case Missing(reason) => a.(availability := Unavailable(reason), path := None)
      case Fails => a
  }

  /** The loop over the attachment plans; `None` when a load fails outright. Exactly the
      attachments that could not be loaded are listed as missing. */
  method LoadAttachments(plans: seq<AttachmentRecord>, load: AttachmentRecord -> Load)
    returns (r: Option<seq<AttachmentRecord>>, missing: seq<string>)
    ensures r.Some? ==>
              && |r.value| == |plans|
              && (forall i :: 0 <= i < |plans| ==> r.value[i] == Loaded(plans[i], load(plans[i])))
              && (forall i :: 0 <= i < |plans| && !plans[i].availability.ExcludedDeleted? ==> !load(plans[i]).Fails?)
    ensures r.Some? ==> forall id :: id in missing <==>
              exists i :: 0 <= i < |plans| && !plans[i].availability.ExcludedDeleted?
                          && load(plans[i]).Missing? && plans[i].id == id
    ensures r.None? ==> exists i :: 0 <= i < |plans| && !plans[i].availability.ExcludedDeleted? && load(plans[i]).Fails?
  {
    var records := plans;
    missing := [];
    var i := 0;
    while i < |plans|
      invariant 0 <= i <= |plans| == |records|
      invariant forall j :: i <= j < |plans| ==> records[j] == plans[j]
      invariant forall j :: 0 <= j < i ==> records[j] == Loaded(plans[j], load(plans[j]))
      invariant forall j :: 0 <= j < i && !plans[j].availability.ExcludedDeleted? ==> !load(plans[j]).Fails?
      invariant forall id :: id in missing <==>
                  exists j :: 0 <= j < i && !plans[j].availability.ExcludedDeleted? && load(plans[j]).Missing? && plans[j].id == id
    {
      var a := records[i];
      if !a.availability.ExcludedDeleted? {
        var got := load(a);
        match got {
          case Fails => return None, missing;
          case Plaintext(d) => records := records[i := a.(availability := Included, digest := Some(d))];
          case Missing(reason) =>
            records := records[i := a.(availability := Unavailable(reason), path := None)];
            missing := missing + [a.id];
        }
      }
      i := i + 1;
    }
    r := Some(records);
  }

  // ---------- the export passes its validator ----------

  ghost predicate UsedInput(s: State, x: seq<int>) {
    || (exists c :: c in s.readable && x == Codes(c))
    || (exists m, i: nat :: HasAttachment(s, m, i) && x == InputOf(s, m, i))
  }

  /** On the inputs this export hashes, digests have full length and their short form identifies
      the input. */
  ghost predicate Separates(hex: Hex, s: State) {
    && (forall x :: UsedInput(s, x) ==> |hex(x)| == DigestLength)
    && (forall x, y :: UsedInput(s, x) && UsedInput(s, y) && Short(hex, x) == Short(hex, y) ==> x == y)
  }

  lemma ChannelPathsDiffer(s: State, hex: Hex, c: ChannelId, d: ChannelId)
    requires StateOk(s) && Separates(hex, s) && c in s.readable && d in s.readable && c != d
    ensures ChannelOf(s, hex, c).htmlPath != ChannelOf(s, hex, d).htmlPath
  {
    if ChannelOf(s, hex, c).htmlPath == ChannelOf(s, hex, d).htmlPath {
      assert UsedInput(s, Codes(c)) && UsedInput(s, Codes(d));
      ChannelPathsAgree(hex, s.channels[c], c, s.channels[d], d);
      CodesInjective(c, d);
    }
  }

  lemma InputsDiffer(s: State, hex: Hex, m: MessageId, i: nat, n: MessageId, j: nat)
    requires StateOk(s) && Separates(hex, s) && HasAttachment(s, m, i) && HasAttachment(s, n, j) && (m != n || i != j)
    ensures |Short(hex, InputOf(s, m, i))| == |Short(hex, InputOf(s, n, j))|
    ensures Short(hex, InputOf(s, m, i)) != Short(hex, InputOf(s, n, j))
  {
    var x, y := InputOf(s, m, i), InputOf(s, n, j);
    assert UsedInput(s, x) && UsedInput(s, y);
    if Short(hex, x) == Short(hex, y) {
      InputIdentifies(s.messages[m].channel, m, i, s.messages[n].channel, n, j);
    }
  }

  lemma IdsDiffer(s: State, hex: Hex, m: MessageId, i: nat, n: MessageId, j: nat)
    requires StateOk(s) && Separates(hex, s) && HasAttachment(s, m, i) && HasAttachment(s, n, j) && (m != n || i != j)
    ensures IdOf(s, hex, m, i) != IdOf(s, hex, n, j)
  {
    InputsDiffer(s, hex, m, i, n, j);
    if IdOf(s, hex, m, i) == IdOf(s, hex, n, j) {
      DropPrefix("att_", hex(InputOf(s, m, i)), hex(InputOf(s, n, j)));
    }
  }

  lemma PathsDiffer(s: State, hex: Hex, m: MessageId, i: nat, n: MessageId, j: nat)
    requires StateOk(s) && Separates(hex, s) && HasAttachment(s, m, i) && HasAttachment(s, n, j) && (m != n || i != j)
    ensures PathOf(s, hex, m, i) != PathOf(s, hex, n, j)
  {
    InputsDiffer(s, hex, m, i, n, j);
    if PathOf(s, hex, m, i) == PathOf(s, hex, n, j) {
      PathsAgree(hex, s.messages[m].channel, m, i, s.messages[m].names[i],
                 s.messages[n].channel, n, j, s.messages[n].names[j]);
    }
  }

  /** Each record is its plan after loading, and no load failed outright. */
  ghost predicate LoadedFrom(plans: seq<AttachmentRecord>, records: seq<AttachmentRecord>, load: AttachmentRecord -> Load) {
    && |records| == |plans|
    && (forall i :: 0 <= i < |plans| ==> records[i] == Loaded(plans[i], load(plans[i])))
    && (forall i :: 0 <= i < |plans| && !plans[i].availability.ExcludedDeleted? ==> !load(plans[i]).Fails?)
  }

  lemma LoadedIsSound(s: State, hex: Hex, m: MessageId, i: nat, load: Load, messages: seq<MessageRecord>)
    requires HasAttachment(s, m, i) && MessagesOf(s, hex, messages)
    requires !s.messages[m].deleted ==> !load.Fails?
    ensures AttachmentOk(Loaded(AttachmentOf(s, hex, m, i), load), messages)
  {
    var r := MessageOf(s, hex, m);
    assert r in messages && r.id == m;
  }

  lemma LoadedDoNotClash(s: State, hex: Hex, m: MessageId, i: nat, n: MessageId, j: nat, l: Load, k: Load)
    requires StateOk(s) && Separates(hex, s) && HasAttachment(s, m, i) && HasAttachment(s, n, j) && (m != n || i != j)
    ensures !Clash(Loaded(AttachmentOf(s, hex, m, i), l), Loaded(AttachmentOf(s, hex, n, j), k))
  {
    IdsDiffer(s, hex, m, i, n, j);
    PathsDiffer(s, hex, m, i, n, j);
    LoadingCannotClash(AttachmentOf(s, hex, m, i), AttachmentOf(s, hex, n, j), l, k);
  }

  lemma LoadingCannotClash(a: AttachmentRecord, b: AttachmentRecord, l: Load, k: Load)
    requires a.id != b.id && !a.availability.Included? && !b.availability.Included?
    requires a.availability.ExcludedDeleted? || b.availability.ExcludedDeleted? || a.path != b.path
    ensures !Clash(Loaded(a, l), Loaded(b, k))
  {
  }

  lemma LoadedAttachmentsOk(s: State, hex: Hex, plans: seq<AttachmentRecord>, records: seq<AttachmentRecord>,
                            load: AttachmentRecord -> Load, messages: seq<MessageRecord>)
    requires StateOk(s) && Separates(hex, s) && MessagesOf(s, hex, messages) && AttachmentsOf(s, hex, plans)
    requires LoadedFrom(plans, records, load)
    ensures AttachmentsOk(records, messages)
  {
    forall i | 0 <= i < |records| ensures AttachmentOk(records[i], messages) {
      assert plans[i] in plans;
      LoadedIsSound(s, hex, plans[i].message, plans[i].index, load(plans[i]), messages);
    }
    forall i, j | 0 <= i < j < |records| ensures !Clash(records[i], records[j]) {
      assert plans[i] in plans && plans[j] in plans && !SamePlace(plans[i], plans[j]);
      LoadedDoNotClash(s, hex, plans[i].message, plans[i].index, plans[j].message, plans[j].index,
                       load(plans[i]), load(plans[j]));
    }
  }

  lemma LoadedKeepsPlace(a: AttachmentRecord, load: Load)
    ensures var b := Loaded(a, load);
            b.id == a.id && b.message == a.message && b.index == a.index
            && (b.availability.ExcludedDeleted? <==> a.availability.ExcludedDeleted?)
  {
  }

  lemma ReferencedHasRecord(s: State, hex: Hex, plans: seq<AttachmentRecord>, records: seq<AttachmentRecord>,
                            load: AttachmentRecord -> Load, m: MessageId, i: nat)
    requires AttachmentsOf(s, hex, plans) && LoadedFrom(plans, records, load)
    requires HasAttachment(s, m, i) && !s.messages[m].deleted
    ensures IdOf(s, hex, m, i) in RecordIds(records, m)
  {
    var a := AttachmentOf(s, hex, m, i);
    var k :| 0 <= k < |plans| && plans[k] == a;
    LoadedKeepsPlace(a, load(a));
    assert records[k] in records;
  }

  lemma RecordIsReferenced(s: State, hex: Hex, plans: seq<AttachmentRecord>, records: seq<AttachmentRecord>,
                           load: AttachmentRecord -> Load, k: nat)
    requires AttachmentsOf(s, hex, plans) && LoadedFrom(plans, records, load) && k < |records|
    requires !records[k].availability.ExcludedDeleted?
    ensures HasAttachment(s, records[k].message, records[k].index) && !s.messages[records[k].message].deleted
    ensures records[k].id == IdOf(s, hex, records[k].message, records[k].index)
  {
    assert plans[k] in plans;
    LoadedKeepsPlace(plans[k], load(plans[k]));
  }

  lemma ReferencesMatch(s: State, hex: Hex, plans: seq<AttachmentRecord>, records: seq<AttachmentRecord>,
                        load: AttachmentRecord -> Load, m: MessageId)
    requires AttachmentsOf(s, hex, plans) && LoadedFrom(plans, records, load) && Exported(s, m)
    ensures Referenced(MessageOf(s, hex, m)) == RecordIds(records, m)
  {
    var ids := MessageOf(s, hex, m).attachmentIds;
    forall i | 0 <= i < |ids| ensures ids[i] in RecordIds(records, m) {
      ReferencedHasRecord(s, hex, plans, records, load, m, i);
    }
    forall k | 0 <= k < |records| && records[k].message == m && !records[k].availability.ExcludedDeleted?
      ensures records[k].id in ids
    {
      RecordIsReferenced(s, hex, plans, records, load, k);
      assert ids[records[k].index] == records[k].id;
    }
  }

  lemma MessagesAreOk(s: State, hex: Hex, messages: seq<MessageRecord>, channels: seq<ChannelRecord>)
    requires StateOk(s) && Separates(hex, s) && MessagesOf(s, hex, messages) && ChannelsOf(s, hex, channels)
    ensures MessagesOk(messages, channels)
  {
    forall i | 0 <= i < |messages|
      ensures HasChannel(channels, messages[i].channel) && NoDuplicates(messages[i].attachmentIds)
    {
      var r := messages[i];
      assert r in messages;
      forall j, k | 0 <= j < k < |r.attachmentIds| ensures r.attachmentIds[j] != r.attachmentIds[k] {
        IdsDiffer(s, hex, r.id, j, r.id, k);
      }
    }
  }

  lemma ChannelsAreOk(s: State, hex: Hex, channels: seq<ChannelRecord>)
    requires StateOk(s) && Separates(hex, s) && ChannelsOf(s, hex, channels)
    ensures ChannelsOk(channels)
  {
    forall i, j | 0 <= i < j < |channels|
      ensures channels[i].id != channels[j].id && channels[i].htmlPath != channels[j].htmlPath
    {
      assert channels[i] in channels && channels[j] in channels;
      ChannelPathsDiffer(s, hex, channels[i].id, channels[j].id);
    }
  }

  /** Whatever the state, the names in it, the record order and the outcome of every load: records
      built by the projection and the attachment loop are well formed. */
  lemma ProjectionIsWellFormed(s: State, hex: Hex, r: Records, records: seq<AttachmentRecord>,
                               load: AttachmentRecord -> Load)
    requires StateOk(s) && Separates(hex, s) && ProjectionOf(s, hex, r) && LoadedFrom(r.attachments, records, load)
    ensures WellFormed(r.(attachments := records))
  {
    ChannelsAreOk(s, hex, r.channels);
    MessagesAreOk(s, hex, r.messages, r.channels);
    LoadedAttachmentsOk(s, hex, r.attachments, records, load, r.messages);
    forall i | 0 <= i < |r.messages|
      ensures Referenced(r.messages[i]) == RecordIds(records, r.messages[i].id)
    {
      assert r.messages[i] in r.messages;
      ReferencesMatch(s, hex, r.attachments, records, load, r.messages[i].id);
    }
  }

  // ---------- nothing is left out and nothing is made up ----------

  predicate Readable(s: State, m: MessageId) {
    m in s.messages && s.messages[m].channel in s.readable && s.messages[m].authored
  }

  /** The record says of the message what the state does. */
  predicate TellsMessage(s: State, r: MessageRecord)
    requires r.id in s.messages
  {
    && r.channel == s.messages[r.id].channel && r.deleted == s.messages[r.id].deleted
    && |r.attachmentIds| == (if r.deleted then 0 else |s.messages[r.id].names|)
  }

  /** The record tells where the attachment belongs and how its load ended. */
  predicate TellsAttachment(s: State, hex: Hex, a: AttachmentRecord)
    requires a.message in s.messages && a.index < |s.messages[a.message].names|
  {
    var v := s.messages[a.message];
    && a.channel == v.channel
    && if v.deleted then a.availability == ExcludedDeleted && a.path == None && a.digest == None
       else if a.availability.Included?
       then a.path == Some(AttachmentPath(hex, v.channel, a.message, a.index, v.names[a.index])) && a.digest.Some?
       else a.availability.Unavailable? && a.path == None && a.digest == None
  }

  predicate ChannelListed(channels: seq<ChannelRecord>, c: ChannelId) {
    exists x :: x in channels && x.id == c
  }

  predicate MessageListed(messages: seq<MessageRecord>, m: MessageId) {
    exists x :: x in messages && x.id == m
  }

  predicate AttachmentListed(attachments: seq<AttachmentRecord>, m: MessageId, i: nat) {
    exists a :: a in attachments && a.message == m && a.index == i
  }

  ghost predicate ListsMessages(s: State, messages: seq<MessageRecord>) {
    && (forall m :: Readable(s, m) <==> MessageListed(messages, m))
    && (forall x :: x in messages ==> x.id in s.messages && TellsMessage(s, x))
  }

  ghost predicate ListsAttachments(s: State, hex: Hex, attachments: seq<AttachmentRecord>) {
    && (forall m, i: nat :: AttachmentListed(attachments, m, i) <==> Readable(s, m) && i < |s.messages[m].names|)
    && (forall a :: a in attachments ==>
          a.message in s.messages && a.index < |s.messages[a.message].names| && TellsAttachment(s, hex, a))
  }

  /** The export lists exactly the readable channels, the actors, the readable messages whose author is
      known, and all attachments of these. */
  ghost predicate ListsAll(s: State, hex: Hex, r: Records) {
    && (forall c :: c in s.readable <==> ChannelListed(r.channels, c))
    && (forall d :: d in r.members <==> d in s.actors)
    && ListsMessages(s, r.messages) && ListsAttachments(s, hex, r.attachments)
  }

  lemma ChannelsListAll(s: State, hex: Hex, channels: seq<ChannelRecord>)
    requires ChannelsOf(s, hex, channels)
    ensures forall c :: c in s.readable <==> ChannelListed(channels, c)
  {
    forall c | c in s.readable ensures ChannelListed(channels, c) {
      var i :| 0 <= i < |channels| && channels[i].id == c;
      assert channels[i] in channels;
    }
  }

  lemma MessagesListAll(s: State, hex: Hex, messages: seq<MessageRecord>)
    requires MessagesOf(s, hex, messages)
    ensures ListsMessages(s, messages)
  {
    forall m | Readable(s, m) ensures MessageListed(messages, m) {
      assert Exported(s, m) && MessageOf(s, hex, m) in messages;
    }
  }

  lemma LoadedTells(s: State, hex: Hex, m: MessageId, i: nat, load: Load)
    requires HasAttachment(s, m, i) && (!s.messages[m].deleted ==> !load.Fails?)
    ensures var a := Loaded(AttachmentOf(s, hex, m, i), load);
            a.message == m && a.index == i && TellsAttachment(s, hex, a)
  {
  }

  lemma RecordTells(s: State, hex: Hex, plans: seq<AttachmentRecord>, records: seq<AttachmentRecord>, load: AttachmentRecord -> Load, a: AttachmentRecord)
    requires AttachmentsOf(s, hex, plans) && LoadedFrom(plans, records, load) && a in records
    ensures HasAttachment(s, a.message, a.index) && TellsAttachment(s, hex, a)
  {
    var k :| 0 <= k < |records| && records[k] == a;
    assert plans[k] in plans;
    LoadedTells(s, hex, plans[k].message, plans[k].index, load(plans[k]));
  }

  lemma AttachmentIsListed(s: State, hex: Hex, plans: seq<AttachmentRecord>, records: seq<AttachmentRecord>, load: AttachmentRecord -> Load,
                           m: MessageId, i: nat)
    requires AttachmentsOf(s, hex, plans) && LoadedFrom(plans, records, load) && HasAttachment(s, m, i)
    ensures AttachmentListed(records, m, i)
  {
    var k :| 0 <= k < |plans| && plans[k] == AttachmentOf(s, hex, m, i);
    LoadedTells(s, hex, m, i, load(plans[k]));
    assert records[k] in records;
  }

  lemma AttachmentsListAll(s: State, hex: Hex, plans: seq<AttachmentRecord>, records: seq<AttachmentRecord>, load: AttachmentRecord -> Load)
    requires AttachmentsOf(s, hex, plans) && LoadedFrom(plans, records, load)
    ensures ListsAttachments(s, hex, records)
  {
    forall a | a in records
      ensures HasAttachment(s, a.message, a.index) && TellsAttachment(s, hex, a)
    {
      RecordTells(s, hex, plans, records, load, a);
    }
    forall m, i: nat ensures AttachmentListed(records, m, i) <==> Readable(s, m) && i < |s.messages[m].names| {
      assert HasAttachment(s, m, i) <==> Readable(s, m) && i < |s.messages[m].names|;
      if HasAttachment(s, m, i) {
        AttachmentIsListed(s, hex, plans, records, load, m, i);
      }
    }
  }

  lemma ExportListsAll(s: State, hex: Hex, r: Records, records: seq<AttachmentRecord>, load: AttachmentRecord -> Load)
    requires ProjectionOf(s, hex, r) && LoadedFrom(r.attachments, records, load)
    ensures ListsAll(s, hex, r.(attachments := records))
  {
    ChannelsListAll(s, hex, r.channels);
    MessagesListAll(s, hex, r.messages);
    AttachmentsListAll(s, hex, r.attachments, records, load);
  }

  datatype Outcome = Written(records: Records) | LoadFailed | Rejected

  /** A whole export, from the materialized state to the validated records. Maps are traversed in
      any order and the records are then sorted in any way; the validator never rejects. */
  method Export(s: State, hex: Hex, channelOrder: seq<ChannelId>, memberOrder: seq<DeviceId>, messageOrder: seq<MessageId>,
                sort: Records -> Records, load: AttachmentRecord -> Load) returns (r: Outcome)
    requires StateOk(s) && Separates(hex, s)
    requires Lists(channelOrder, s.readable) && Lists(memberOrder, s.actors) && Lists(messageOrder, s.messages.Keys)
    requires forall x :: Permutes(x, sort(x))
    ensures r != Rejected
    ensures r.Written? ==> WellFormed(r.records)
    ensures r.Written? ==> MessagesOf(s, hex, r.records.messages) && ChannelsOf(s, hex, r.records.channels)
    ensures r.Written? ==> ListsAll(s, hex, r.records)
  {
    var channels := ProjectChannels(s, hex, channelOrder);
    var messages, attachments := ProjectMessages(s, hex, messageOrder);
    var projected := Records(channels, memberOrder, messages, attachments);
    var sorted := sort(projected);
    SortingKeepsProjection(s, hex, projected, sorted);
    var records, missing := LoadAttachments(sorted.attachments, load);
    if records.None? {
      return LoadFailed;
    }
    ProjectionIsWellFormed(s, hex, sorted, records.value, load);
    ExportListsAll(s, hex, sorted, records.value, load);
    var complete := sorted.(attachments := records.value);
    var ok := Validate(complete);
    r := if ok then Written(complete) else Rejected;
  }
}
