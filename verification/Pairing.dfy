// Saved peers and their settings in the configuration file (src/pairing.rs and the edits of src/manager.rs).
module Pairing {
  import opened Geometry
  import opened Protocol

  datatype Connection = Listen(address: string) | Connect(address: string)

  datatype SavedPeer = SavedPeer(fingerprint: string, name: string, certificate: string,
                                 connection: Connection, edges: seq<EdgeConfig>)

  /** What a readable certificate says. */
  datatype CertificateInfo = CertificateInfo(name: string, fingerprint: string)

  /** The configuration: the settings in use, the selected peer, and the saved profiles. */
  datatype Config = Config(peerName: string, peerCertificate: string, connection: Connection, edges: seq<EdgeConfig>,
                           peers: seq<SavedPeer>)

  /** Where a certificate is kept. */
  function StoredPath(fingerprint: string): string {
    "peers/" + fingerprint + ".pem"
  }

  /** The certificate files by path, and what they say if they can be read. */
  type Certificates = map<string, Option<CertificateInfo>>

  predicate ValidFingerprint(f: string) {
    |f| == 64 && forall i :: 0 <= i < |f| ==> '0' <= f[i] <= '9' || 'a' <= f[i] <= 'f'
  }

  predicate ValidPeer(p: SavedPeer) {
    && ValidFingerprint(p.fingerprint)
    && p.name != "" && Bytes(p.name) <= 253 && (forall i :: 0 <= i < |p.name| ==> !ControlCharacter(p.name[i]))
    && ValidEdges(p.edges)
  }

  predicate Selects(c: Config, p: SavedPeer) {
    p.certificate == c.peerCertificate && p.name == c.peerName
  }

  ghost predicate DistinctPeers(peers: seq<SavedPeer>) {
    forall i, j :: 0 <= i < j < |peers| ==> peers[i].fingerprint != peers[j].fingerprint
  }

  ghost predicate ValidPeers(c: Config) {
    && (forall i :: 0 <= i < |c.peers| ==> ValidPeer(c.peers[i])) && DistinctPeers(c.peers)
    && (c.peers != [] ==> exists i :: 0 <= i < |c.peers| && Selects(c, c.peers[i]))
  }

  /** The check that walks the profiles once. */
  method Validate(c: Config) returns (ok: bool)
    ensures ok <==> ValidPeers(c)
  {
    hide ValidPeer;
    var fingerprints := {};
    for index := 0 to |c.peers|
      invariant forall i :: 0 <= i < index ==> ValidPeer(c.peers[i])
      invariant forall i, j :: 0 <= i < j < index ==> c.peers[i].fingerprint != c.peers[j].fingerprint
      invariant forall i :: 0 <= i < index ==> c.peers[i].fingerprint in fingerprints
      invariant forall f :: f in fingerprints ==> exists i :: 0 <= i < index && c.peers[i].fingerprint == f
    {
      var peer := c.peers[index];
      if !ValidPeer(peer) || peer.fingerprint in fingerprints {
        return false;
      }
      fingerprints := fingerprints + {peer.fingerprint};
    }
    if c.peers == [] {
      return true;
    }
    for index := 0 to |c.peers|
      invariant forall i :: 0 <= i < index ==> !Selects(c, c.peers[i])
    {
      if Selects(c, c.peers[index]) {
        return true;
      }
    }
    return false;
  }

  // ---- The edits ----

  /** The first profile with this certificate, or the number of profiles. */
  function FirstWith(peers: seq<SavedPeer>, certificate: string): (i: nat)
    ensures i <= |peers|
    ensures i < |peers| ==> peers[i].certificate == certificate
    ensures forall k :: 0 <= k < i ==> peers[k].certificate != certificate
  {
    if peers == [] then 0
    else if peers[0].certificate == certificate then 0
    else 1 + FirstWith(peers[1..], certificate)
  }

  /** The first profile with this fingerprint, or the number of profiles. */
  function Find(peers: seq<SavedPeer>, fingerprint: string): (i: nat)
    ensures i <= |peers|
    ensures i < |peers| ==> peers[i].fingerprint == fingerprint
    ensures forall k :: 0 <= k < i ==> peers[k].fingerprint != fingerprint
  {
    if peers == [] then 0
    else if peers[0].fingerprint == fingerprint then 0
    else 1 + Find(peers[1..], fingerprint)
  }

  /** Copies the settings in use into the selected profile. */
  ghost function Synced(c: Config): Outcome<Config> {
    if c.peers == [] then Ok(c)
    else
      var i := FirstWith(c.peers, c.peerCertificate);
      if !ValidPeers(c) || i == |c.peers| then Failed
      else Ok(c.(peers := c.peers[i := c.peers[i].(connection := c.connection, edges := c.edges)]))
  }

  function Activated(c: Config, p: SavedPeer): Config {
    c.(peerName := p.name, peerCertificate := p.certificate, connection := p.connection, edges := p.edges)
  }

  /** Keeps a certificate under its fingerprint: an existing file must hold it, or be repaired. */
  function Stored(certs: Certificates, info: CertificateInfo, repair: bool, able: bool): Outcome<Certificates> {
    var path := StoredPath(info.fingerprint);
    if !able || !ValidFingerprint(info.fingerprint) then Failed
    else if path in certs && certs[path].Some? && certs[path].value.fingerprint == info.fingerprint then Ok(certs)
    else if path in certs && !repair then Failed
    else Ok(certs[path := Some(info)])
  }

  predicate Checked(certs: Certificates, p: SavedPeer) {
    p.certificate in certs && certs[p.certificate] == Some(CertificateInfo(p.name, p.fingerprint))
  }

  const DEFAULT_CONNECTION := Listen("0.0.0.0:42420")

  /** The profile made of the settings in use, for the certificate that was in use before peers were saved. */
  function Adopted(c: Config, current: CertificateInfo): SavedPeer {
    SavedPeer(current.fingerprint, current.name, StoredPath(current.fingerprint), c.connection, c.edges)
  }

  /** A peer added later starts out listening, on the first edge in use. */
  function Newcomer(c: Config, info: CertificateInfo): SavedPeer
    requires c.edges != []
  {
    SavedPeer(info.fingerprint, info.name, StoredPath(info.fingerprint), DEFAULT_CONNECTION,
              [c.edges[0].(id := "default")])
  }

  datatype Saved = Saved(config: Config, certs: Certificates)

  /** Before the first peer is saved, the certificate in use becomes one, if it can be read. */
  function Migrated(s: Saved, info: CertificateInfo, able: bool): Outcome<Saved> {
    var c := s.config;
    if c.peers != [] || c.peerCertificate !in s.certs then Ok(s)
    else if s.certs[c.peerCertificate].None? then Failed
    else
      var current := s.certs[c.peerCertificate].value;
      var certs :- Stored(s.certs, current, current.fingerprint == info.fingerprint, able);
      var p := Adopted(c, current);
      Ok(Saved(Activated(c, p).(peers := [p]), certs))
  }

  function Added(s: Saved, info: CertificateInfo, able: bool): Outcome<Saved> {
    var m :- Migrated(s, info, able);
    var peers := m.config.peers;
    if Find(peers, info.fingerprint) == |peers| then
      if m.config.edges == [] then Failed
      else
        var certs :- Stored(m.certs, info, true, able);
        if peers == [] then
          var p := Adopted(m.config, info);
          Ok(Saved(Activated(m.config, p).(peers := [p]), certs))
        else Ok(Saved(m.config.(peers := peers + [Newcomer(m.config, info)]), certs))
    else
      var certs :- Stored(m.certs, info, true, able);
      if Checked(certs, peers[Find(peers, info.fingerprint)]) then Ok(Saved(m.config, certs)) else Failed
  }

  function Selected(s: Saved, fingerprint: string): Outcome<Saved> {
    var peers := s.config.peers;
    var i := Find(peers, fingerprint);
    if i == |peers| || !Checked(s.certs, peers[i]) then Failed
    else Ok(s.(config := Activated(s.config, peers[i])))
  }

  datatype Edit =
    | AddPeer(info: CertificateInfo, able: bool)
    | SelectPeer(fingerprint: string)
    | SetConnection(connection: Connection)
    | SetEdges(edges: seq<EdgeConfig>)

  function Changed(s: Saved, e: Edit): Outcome<Saved> {
    match e
    case AddPeer(info, able) => Added(s, info, able)
    case SelectPeer(fingerprint) => Selected(s, fingerprint)
    case SetConnection(connection) => Ok(s.(config := s.config.(connection := connection)))
    case SetEdges(edges) => Ok(s.(config := s.config.(edges := edges)))
  }

  /** One committed edit: the selected profile is brought up to date before and after, and the result must be valid. */
  ghost function Edited(s: Saved, e: Edit): Outcome<Saved> {
    var before :- Synced(s.config);
    var changed :- Changed(s.(config := before), e);
    var after :- Synced(changed.config);
    if ValidPeers(after) && ValidEdges(after.edges) then Ok(changed.(config := after)) else Failed
  }

  // ---- Profiles ----

  /** The settings saved for a peer. */
  function Profile(c: Config, fingerprint: string): Option<SavedPeer> {
    var i := Find(c.peers, fingerprint);
    if i == |c.peers| then None else Some(c.peers[i])
  }

  /** No two profiles share a certificate file. Loading a file does not check this. */
  ghost predicate OwnPaths(c: Config) {
    forall i, j :: 0 <= i < j < |c.peers| ==> c.peers[i].certificate != c.peers[j].certificate
  }

  /** The edit stores no certificate where another profile already has its own. */
  predicate Admits(c: Config, e: Edit) {
    e.AddPeer? ==>
      forall i :: 0 <= i < |c.peers| && c.peers[i].certificate == StoredPath(e.info.fingerprint) ==>
        c.peers[i].fingerprint == e.info.fingerprint
  }

  /** The profile saved for this peer has the certificate in use. */
  predicate IsSelected(c: Config, fingerprint: string) {
    var i := Find(c.peers, fingerprint);
    i < |c.peers| && c.peers[i].certificate == c.peerCertificate
  }

  lemma PathsDistinct(f: string, g: string)
    requires StoredPath(f) == StoredPath(g) && |f| == |g|
    ensures f == g
  {
    assert StoredPath(f)[6..6 + |f|] == f && StoredPath(g)[6..6 + |g|] == g;
  }

  /** In a valid configuration with a path for each, exactly one profile carries the selected certificate. */
  lemma OneSelected(c: Config, i: nat)
    requires ValidPeers(c) && OwnPaths(c) && i < |c.peers| && c.peers[i].certificate == c.peerCertificate
    ensures FirstWith(c.peers, c.peerCertificate) == i && Selects(c, c.peers[i])
    ensures Find(c.peers, c.peers[i].fingerprint) == i
  {
    hide ValidPeer, FirstWith, Find;
    var first := FirstWith(c.peers, c.peerCertificate);
    assert first == i;
    var k :| 0 <= k < |c.peers| && Selects(c, c.peers[k]);
    assert k == i;
    FindsItself(c.peers, i);
  }

  lemma FindsItself(peers: seq<SavedPeer>, j: nat)
    requires j < |peers| && DistinctPeers(peers)
    ensures Find(peers, peers[j].fingerprint) == j
  {
    hide Find;
  }

  // ---- What an edit keeps ----

  /** The settings in use are those of the selected profile. */
  predicate UpToDate(c: Config) {
    c.peers != [] ==>
      var i := FirstWith(c.peers, c.peerCertificate);
      i < |c.peers| && Selects(c, c.peers[i]) && c.peers[i].connection == c.connection && c.peers[i].edges == c.edges
  }

  /** The configuration between edits. */
  ghost predicate Current(c: Config) {
    OwnPaths(c) && ValidPeers(c) && UpToDate(c)
  }

  /** Replacing the settings of one profile moves no profile. */
  lemma SameOrder(peers: seq<SavedPeer>, i: nat, p: SavedPeer, certificate: string, fingerprint: string)
    requires i < |peers| && p.certificate == peers[i].certificate && p.fingerprint == peers[i].fingerprint
    ensures FirstWith(peers[i := p], certificate) == FirstWith(peers, certificate)
    ensures Find(peers[i := p], fingerprint) == Find(peers, fingerprint)
  {
    hide FirstWith, Find;
    var after := peers[i := p];
    assert forall k :: 0 <= k < |peers| ==>
      after[k].certificate == peers[k].certificate && after[k].fingerprint == peers[k].fingerprint;
  }

  /** Bringing the selected profile up to date: the profiles stay who they are, and the first one with the certificate
      in use gets the settings in use. */
  lemma SyncedFrame(c: Config)
    requires Synced(c).Ok?
    ensures var after := Synced(c).value;
            && after == c.(peers := after.peers) && |after.peers| == |c.peers|
            && (forall i :: 0 <= i < |c.peers| ==> SamePeer(after.peers[i], c.peers[i]))
            && (forall certificate :: FirstWith(after.peers, certificate) == FirstWith(c.peers, certificate))
            && (c.peers != [] ==>
                  var i := FirstWith(c.peers, c.peerCertificate);
                  && ValidPeers(c) && i < |c.peers|
                  && after.peers[i].connection == c.connection && after.peers[i].edges == c.edges)
            && (UpToDate(c) ==> after == c)
  {
    hide ValidPeers, FirstWith, Find;
    if c.peers != [] {
      var i := FirstWith(c.peers, c.peerCertificate);
      var p := c.peers[i].(connection := c.connection, edges := c.edges);
      forall certificate ensures FirstWith(c.peers[i := p], certificate) == FirstWith(c.peers, certificate) {
        SameOrder(c.peers, i, p, certificate, "");
      }
      assert UpToDate(c) ==> c.peers[i := p] == c.peers;
    }
  }

  /** Only the settings may differ. */
  predicate SamePeer(p: SavedPeer, q: SavedPeer) {
    p.fingerprint == q.fingerprint && p.name == q.name && p.certificate == q.certificate
  }

  lemma SyncedKeeps(c: Config)
    requires OwnPaths(c) && Synced(c).Ok?
    ensures var after := Synced(c).value;
            && OwnPaths(after) && after == c.(peers := after.peers) && |after.peers| == |c.peers|
            && (forall i :: 0 <= i < |c.peers| ==>
                  after.peers[i].certificate == c.peers[i].certificate
                  && after.peers[i].fingerprint == c.peers[i].fingerprint)
            && (c.peers != [] ==> UpToDate(after) && ValidPeers(c))
            && (Current(c) ==> after == c)
  {
    hide ValidPeer, FirstWith, Find;
    if c.peers != [] {
      var i := FirstWith(c.peers, c.peerCertificate);
      OneSelected(c, i);
      SameOrder(c.peers, i, c.peers[i].(connection := c.connection, edges := c.edges), c.peerCertificate, "");
      if Current(c) {
        assert Synced(c).value.peers == c.peers;
      }
    }
  }

  /** Bringing the selected profile up to date changes no other profile, and selects none. */
  lemma SyncedSpares(c: Config, fingerprint: string)
    requires Synced(c).Ok? && !IsSelected(c, fingerprint)
    ensures Profile(Synced(c).value, fingerprint) == Profile(c, fingerprint)
  {
    hide ValidPeers, FirstWith, Find;
    if c.peers != [] {
      var i, j := FirstWith(c.peers, c.peerCertificate), Find(c.peers, fingerprint);
      SameOrder(c.peers, i, c.peers[i].(connection := c.connection, edges := c.edges), "", fingerprint);
      if j < |c.peers| {
        assert i != j;
      }
    }
  }

  lemma SyncedSelects(c: Config, fingerprint: string)
    requires Synced(c).Ok?
    ensures IsSelected(Synced(c).value, fingerprint) <==> IsSelected(c, fingerprint)
  {
    hide ValidPeers, FirstWith, Find;
    if c.peers != [] {
      var i := FirstWith(c.peers, c.peerCertificate);
      SameOrder(c.peers, i, c.peers[i].(connection := c.connection, edges := c.edges), "", fingerprint);
    }
  }

  lemma MigratedKeeps(s: Saved, info: CertificateInfo, able: bool)
    requires OwnPaths(s.config) && Admits(s.config, AddPeer(info, able)) && Migrated(s, info, able).Ok?
    ensures var c := Migrated(s, info, able).value.config;
            && OwnPaths(c) && c.connection == s.config.connection && c.edges == s.config.edges
            && (s.config.peers != [] ==> c == s.config)
            && (ValidFingerprint(info.fingerprint) ==> Admits(c, AddPeer(info, able)))
  {
    var c := Migrated(s, info, able).value.config;
    if s.config != c && ValidFingerprint(info.fingerprint) && c.peers[0].certificate == StoredPath(info.fingerprint) {
      PathsDistinct(c.peers[0].fingerprint, info.fingerprint);
    }
  }

  lemma AddedKeeps(s: Saved, info: CertificateInfo, able: bool)
    requires OwnPaths(s.config) && Admits(s.config, AddPeer(info, able)) && Added(s, info, able).Ok?
    ensures var c := Added(s, info, able).value.config;
            && OwnPaths(c) && c.connection == s.config.connection && c.edges == s.config.edges
            && (s.config.peers != [] ==> s.config.peers <= c.peers && c == s.config.(peers := c.peers))
  {
    hide Migrated, Find;
    MigratedKeeps(s, info, able);
    var m := Migrated(s, info, able).value.config;
    assert ValidFingerprint(info.fingerprint);
    assert forall i :: 0 <= i < |m.peers| && m.peers[i].fingerprint != info.fingerprint ==>
      m.peers[i].certificate != StoredPath(info.fingerprint);
  }

  lemma ChangedKeeps(s: Saved, e: Edit)
    requires OwnPaths(s.config) && Admits(s.config, e) && Changed(s, e).Ok?
    ensures var c := Changed(s, e).value.config; OwnPaths(c) && (s.config.peers != [] ==> s.config.peers <= c.peers)
  {
    hide Added;
    if e.AddPeer? {
      AddedKeeps(s, e.info, e.able);
    }
  }

  /** Nobody is removed or moved by an edit. */
  lemma ChangedGrows(s: Saved, e: Edit)
    requires Changed(s, e).Ok? && s.config.peers != []
    ensures s.config.peers <= Changed(s, e).value.config.peers
    ensures e.AddPeer? ==> Changed(s, e).value.config == s.config.(peers := Changed(s, e).value.config.peers)
  {
    hide Find, Stored, Checked;
  }

  /** The first profile with this certificate file bears this name. */
  predicate FirstBears(peers: seq<SavedPeer>, certificate: string, name: string) {
    var i := FirstWith(peers, certificate);
    i < |peers| && peers[i].name == name
  }

  /** The certificate file in use after the edit is first of all that of the peer in use then. */
  predicate LeadsAfter(c: Config, e: Edit) {
    match e
    case SelectPeer(fingerprint) =>
      var j := Find(c.peers, fingerprint);
      j < |c.peers| && FirstBears(c.peers, c.peers[j].certificate, c.peers[j].name)
    case _ => c.peers == [] || FirstBears(c.peers, c.peerCertificate, c.peerName)
  }

  lemma SyncedIsCurrent(c: Config)
    requires Synced(c).Ok?
    ensures UpToDate(Synced(c).value) <==> c.peers == [] || FirstBears(c.peers, c.peerCertificate, c.peerName)
  {
    hide ValidPeers, FirstWith, Find, Synced;
    SyncedFrame(c);
  }

  lemma SamePeersFind(a: seq<SavedPeer>, b: seq<SavedPeer>, fingerprint: string)
    requires |a| == |b| && forall i :: 0 <= i < |a| ==> SamePeer(a[i], b[i])
    ensures Find(a, fingerprint) == Find(b, fingerprint)
  {
    hide Find;
  }

  lemma LongerFirst(a: seq<SavedPeer>, b: seq<SavedPeer>, certificate: string)
    requires a <= b && FirstWith(a, certificate) < |a|
    ensures FirstWith(b, certificate) == FirstWith(a, certificate)
  {
    hide FirstWith;
    assert forall k :: 0 <= k < |a| ==> b[k] == a[k];
  }

  /** After every committed edit, on any file, the profiles are valid; and the settings in use are those of the profile
      in use exactly when the first profile with the certificate file in use bears the name in use. */
  lemma EditIsCurrent(s: Saved, e: Edit)
    requires Edited(s, e).Ok?
    ensures ValidPeers(Edited(s, e).value.config)
    ensures UpToDate(Edited(s, e).value.config) <==> LeadsAfter(s.config, e)
  {
    hide Changed, ValidPeers, ValidEdges, Synced, UpToDate, FirstBears, LeadsAfter;
    var before := Synced(s.config).value;
    SyncedFrame(s.config);
    var changed := Changed(s.(config := before), e).value;
    SyncedIsCurrent(changed.config);
    ChangedLeads(s.config, s.(config := before), e);
  }

  /** The condition can be read off the file before the edit. */
  lemma ChangedLeads(c: Config, s: Saved, e: Edit)
    requires Synced(c).Ok? && s.config == Synced(c).value && Changed(s, e).Ok?
    ensures var after := Changed(s, e).value.config;
            after.peers == [] || FirstBears(after.peers, after.peerCertificate, after.peerName) <==> LeadsAfter(c, e)
  {
    hide ValidPeers, FirstWith, Find, Synced, Added, Checked;
    SyncedFrame(c);
    match e
    case SelectPeer(fingerprint) => SamePeersFind(s.config.peers, c.peers, fingerprint);
    case AddPeer(info, able) =>
      if c.peers == [] {
        FirstAdded(s, info, able);
      } else {
        ChangedGrows(s, e);
        LongerFirst(s.config.peers, Changed(s, e).value.config.peers, c.peerCertificate);
      }
    case _ =>
  }

  /** The first peers that are saved: the one in use leads. */
  lemma FirstAdded(s: Saved, info: CertificateInfo, able: bool)
    requires Added(s, info, able).Ok? && s.config.peers == []
    ensures var c := Added(s, info, able).value.config; FirstBears(c.peers, c.peerCertificate, c.peerName)
  {
    hide Stored, Checked;
  }

  /** With a certificate file for each profile, which every edit keeps that shares none, the configuration is up to date
      after every committed edit. */
  lemma OwnPathsStayCurrent(s: Saved, e: Edit)
    requires OwnPaths(s.config) && Admits(s.config, e) && Edited(s, e).Ok?
    ensures Current(Edited(s, e).value.config)
  {
    hide Changed, ValidPeers, ValidEdges, Synced;
    var before := Synced(s.config).value;
    SyncedKeeps(s.config);
    var changed := Changed(s.(config := before), e).value;
    ChangedKeeps(s.(config := before), e);
    SyncedKeeps(changed.config);
  }

  lemma PrefixProfile(c: Config, after: Config, fingerprint: string)
    requires c.peers <= after.peers && Profile(c, fingerprint).Some?
    ensures Profile(after, fingerprint) == Profile(c, fingerprint)
  {
    var i := Find(c.peers, fingerprint);
    assert after.peers[i] == c.peers[i];
    assert forall k :: 0 <= k < i ==> after.peers[k] == c.peers[k];
  }

  /** No edit changes the profile of a peer that is selected neither before nor after it. */
  lemma OthersAreUntouched(s: Saved, e: Edit, fingerprint: string)
    requires Edited(s, e).Ok? && Profile(s.config, fingerprint).Some?
    requires !IsSelected(s.config, fingerprint) && !IsSelected(Edited(s, e).value.config, fingerprint)
    ensures Profile(Edited(s, e).value.config, fingerprint) == Profile(s.config, fingerprint)
  {
    hide Changed, ValidPeers, ValidEdges, Synced, Find, IsSelected;
    SyncedFrame(s.config);
    SyncedSpares(s.config, fingerprint);
    LeftAlone(s, e, fingerprint);
  }

  lemma ProfileExists(c: Config, fingerprint: string)
    requires Profile(c, fingerprint).Some?
    ensures c.peers != []
  {
  }

  /** Once the profile in use has been brought up to date, an edit keeps every profile that it leaves unselected. */
  lemma LeftAlone(s: Saved, e: Edit, fingerprint: string)
    requires Edited(s, e).Ok? && !IsSelected(Edited(s, e).value.config, fingerprint)
    requires Profile(Synced(s.config).value, fingerprint).Some?
    ensures Profile(Edited(s, e).value.config, fingerprint) == Profile(Synced(s.config).value, fingerprint)
  {
    hide Changed, ValidPeers, ValidEdges, Synced, Find, IsSelected;
    var before := Synced(s.config).value;
    ProfileExists(before, fingerprint);
    var changed := Changed(s.(config := before), e).value;
    ChangedGrows(s.(config := before), e);
    PrefixProfile(before, changed.config, fingerprint);
    SyncedSelects(changed.config, fingerprint);
    SyncedSpares(changed.config, fingerprint);
  }

  /** Leaving a peer keeps the settings that were in use with it. */
  lemma LeavingSaves(s: Saved, e: Edit, fingerprint: string)
    requires UpToDate(s.config) && Edited(s, e).Ok? && Profile(s.config, fingerprint).Some?
    requires !IsSelected(Edited(s, e).value.config, fingerprint)
    ensures Profile(Edited(s, e).value.config, fingerprint) == Profile(s.config, fingerprint)
  {
    hide Changed, ValidPeers, ValidEdges, Synced, Find, UpToDate, IsSelected;
    SyncedFrame(s.config);
    LeftAlone(s, e, fingerprint);
  }

  ghost function EditedAll(s: Saved, edits: seq<Edit>): Outcome<Saved> {
    if edits == [] then Ok(s)
    else
      var before :- EditedAll(s, edits[..|edits| - 1]);
      Edited(before, edits[|edits| - 1])
  }

  /** The edit after the first `k` ones is carried out, and leaves the peer unselected. */
  ghost predicate AwayAfter(s: Saved, edits: seq<Edit>, k: nat, fingerprint: string)
    requires k < |edits|
  {
    EditedAll(s, edits[..k + 1]).Ok? && !IsSelected(EditedAll(s, edits[..k + 1]).value.config, fingerprint)
  }

  /** So is every one of them. */
  ghost predicate Away(s: Saved, edits: seq<Edit>, fingerprint: string) {
    forall k :: 0 <= k < |edits| ==> AwayAfter(s, edits, k, fingerprint)
  }

  lemma {:induction false} AwayKeeps(s: Saved, edits: seq<Edit>, fingerprint: string)
    requires UpToDate(s.config) && Profile(s.config, fingerprint).Some? && Away(s, edits, fingerprint)
    ensures EditedAll(s, edits).Ok?
    ensures edits != [] ==> !IsSelected(EditedAll(s, edits).value.config, fingerprint)
    ensures Profile(EditedAll(s, edits).value.config, fingerprint) == Profile(s.config, fingerprint)
    decreases |edits|
  {
    hide Edited, ValidPeers, UpToDate, Profile, IsSelected;
    if edits != [] {
      var shorter := edits[..|edits| - 1];
      forall k | 0 <= k < |shorter| ensures AwayAfter(s, shorter, k, fingerprint) {
        assert shorter[..k + 1] == edits[..k + 1] && AwayAfter(s, edits, k, fingerprint);
      }
      assert edits[..|edits|] == edits && AwayAfter(s, edits, |shorter|, fingerprint);
      AwayKeeps(s, shorter, fingerprint);
      var before := EditedAll(s, shorter).value;
      if shorter == [] {
        LeavingSaves(before, edits[|edits| - 1], fingerprint);
      } else {
        OthersAreUntouched(before, edits[|edits| - 1], fingerprint);
      }
    }
  }

  /** The profile saved for this peer is the one kept up to date: the first with the certificate in use. */
  predicate InUse(c: Config, fingerprint: string) {
    var i := Find(c.peers, fingerprint);
    i < |c.peers| && FirstWith(c.peers, c.peerCertificate) == i
  }

  /** Selecting a peer puts the settings in use that it has once the profile in use has been brought up to date. */
  lemma SelectingRestores(s: Saved, fingerprint: string)
    requires Edited(s, SelectPeer(fingerprint)).Ok?
    ensures Synced(s.config).Ok? && Profile(Synced(s.config).value, fingerprint).Some?
    ensures var c := Edited(s, SelectPeer(fingerprint)).value.config;
            var p := Profile(Synced(s.config).value, fingerprint).value;
            c.connection == p.connection && c.edges == p.edges && c.peerName == p.name
            && c.peerCertificate == p.certificate
  {
    hide ValidPeers, ValidEdges, Synced, UpToDate, Checked, Find;
    SyncedFrame(s.config);
    var changed := Changed(s.(config := Synced(s.config).value), SelectPeer(fingerprint)).value;
    SyncedFrame(changed.config);
  }

  /** Going away from a peer and coming back, after any edits in between, restores the settings left behind. */
  lemma AwayAndBack(s: Saved, edits: seq<Edit>, fingerprint: string)
    requires UpToDate(s.config) && InUse(s.config, fingerprint)
    requires Away(s, edits, fingerprint) && EditedAll(s, edits).Ok?
    requires Edited(EditedAll(s, edits).value, SelectPeer(fingerprint)).Ok?
    ensures var c := Edited(EditedAll(s, edits).value, SelectPeer(fingerprint)).value.config;
            c.connection == s.config.connection && c.edges == s.config.edges && c.peerName == s.config.peerName
            && c.peerCertificate == s.config.peerCertificate
  {
    hide Edited, ValidPeers, Synced, IsSelected;
    AwayKeeps(s, edits, fingerprint);
    var there := EditedAll(s, edits).value;
    SelectingRestores(there, fingerprint);
    if edits == [] {
      SyncedFrame(s.config);
    } else {
      SyncedSpares(there.config, fingerprint);
    }
  }

  /** Adding a peer keeps the selection, its settings and every saved profile; adding one that is saved already changes
      nothing at all. */
  lemma AddingKeepsEverything(s: Saved, info: CertificateInfo, able: bool)
    requires UpToDate(s.config) && s.config.peers != [] && Edited(s, AddPeer(info, able)).Ok?
    ensures var c := Edited(s, AddPeer(info, able)).value.config;
            && c == s.config.(peers := c.peers) && s.config.peers <= c.peers
            && (Profile(s.config, info.fingerprint).Some? ==> c == s.config)
  {
    hide ValidPeers, ValidEdges, Synced, Added, UpToDate, Find;
    SyncedFrame(s.config);
    assert s.(config := s.config) == s;
    var added := Added(s, info, able).value;
    ChangedGrows(s, AddPeer(info, able));
    if Profile(s.config, info.fingerprint).Some? {
      ReAdding(s, info, able);
    }
    AddedStays(s.config, added.config);
  }

  lemma ReAdding(s: Saved, info: CertificateInfo, able: bool)
    requires Added(s, info, able).Ok? && Profile(s.config, info.fingerprint).Some?
    ensures Added(s, info, able).value.config == s.config
  {
    hide Find, Stored, Checked;
    ProfileExists(s.config, info.fingerprint);
  }

  /** Profiles appended behind an up-to-date selected one leave nothing to bring up to date. */
  lemma AddedStays(c: Config, added: Config)
    requires UpToDate(c) && c.peers != [] && Synced(added).Ok?
    requires c.peers <= added.peers && added == c.(peers := added.peers)
    ensures Synced(added).value == added
  {
    hide ValidPeers, FirstWith;
    var i := FirstWith(c.peers, c.peerCertificate);
    LongerFirst(c.peers, added.peers, c.peerCertificate);
    assert added.peers[i] == c.peers[i];
    SyncedFrame(added);
  }

  // ---- A peer that was added ----

  /** A fingerprint belongs to one certificate. */
  predicate Genuine(certs: Certificates, info: CertificateInfo) {
    forall path :: path in certs && certs[path].Some? && certs[path].value.fingerprint == info.fingerprint ==>
      certs[path].value == info
  }

  lemma StoredHolds(certs: Certificates, info: CertificateInfo, repair: bool, able: bool)
    requires Genuine(certs, info) && Stored(certs, info, repair, able).Ok?
    ensures var after := Stored(certs, info, repair, able).value;
            && StoredPath(info.fingerprint) in after && after[StoredPath(info.fingerprint)] == Some(info)
            && Genuine(after, info)
  {
  }

  /** Another certificate that is stored does not touch this one's file, and brings no other of its fingerprint. */
  lemma MigratedGenuine(s: Saved, info: CertificateInfo, able: bool)
    requires Genuine(s.certs, info) && Migrated(s, info, able).Ok?
    ensures Genuine(Migrated(s, info, able).value.certs, info)
  {
    hide ValidFingerprint;
  }

  /** What adding makes of a peer that is not saved yet. */
  lemma AddedProfile(s: Saved, info: CertificateInfo, able: bool)
    requires Added(s, info, able).Ok? && Genuine(s.certs, info)
    ensures var after := Added(s, info, able).value;
            var i := Find(after.config.peers, info.fingerprint);
            && i < |after.config.peers| && Checked(after.certs, after.config.peers[i])
            && after.config.peers[i].name == info.name
            && (s.config.peers != [] && Profile(s.config, info.fingerprint).None? ==>
                  s.config.edges != [] && after.config.peers == s.config.peers + [Newcomer(s.config, info)])
  {
    hide Stored, ValidFingerprint;
    var m := Migrated(s, info, able).value;
    MigratedGenuine(s, info, able);
    var peers := m.config.peers;
    StoredHolds(m.certs, info, true, able);
    if Find(peers, info.fingerprint) == |peers| && peers != [] {
      FindLast(peers, Newcomer(m.config, info));
    }
  }

  lemma FindLast(peers: seq<SavedPeer>, p: SavedPeer)
    requires Find(peers, p.fingerprint) == |peers|
    ensures Find(peers + [p], p.fingerprint) == |peers|
  {
    hide Find;
    var all := peers + [p];
    assert all[|peers|] == p;
    assert forall k :: 0 <= k < |peers| ==> all[k] == peers[k];
  }

  /** After a committed edit that added a peer, its profile is saved under its name and its certificate is kept in the
      file that the profile names; a new one beside others listens, on the first edge in use. And it can be selected:
      that edit succeeds, and puts its settings in use. */
  lemma AddedCanBeSelected(s: Saved, info: CertificateInfo, able: bool)
    requires Edited(s, AddPeer(info, able)).Ok? && Genuine(s.certs, info)
    ensures var after := Edited(s, AddPeer(info, able)).value;
            && Profile(after.config, info.fingerprint).Some?
            && var p := Profile(after.config, info.fingerprint).value;
               && p.name == info.name && p.certificate in after.certs && after.certs[p.certificate] == Some(info)
               && (s.config.peers != [] && Profile(s.config, info.fingerprint).None? ==>
                     s.config.edges != []
                     && p == SavedPeer(info.fingerprint, info.name, StoredPath(info.fingerprint), DEFAULT_CONNECTION,
                                       [s.config.edges[0].(id := "default")]))
               && var selected := Edited(after, SelectPeer(info.fingerprint));
                  selected.Ok? && selected.value.config.peerName == p.name
                  && selected.value.config.peerCertificate == p.certificate
  {
    hide Edited, Find, Checked, Newcomer, ValidPeers, ValidEdges, Genuine;
    AddedIsChecked(s, info, able);
    NewcomerUnsynced(s, info, able);
    var after := Edited(s, AddPeer(info, able)).value;
    var i := Find(after.config.peers, info.fingerprint);
    CheckedIsFile(after.certs, after.config.peers[i]);
    CanSelect(after, i, info);
    if s.config.edges != [] {
      NewcomerIs(s.config, info);
    }
  }

  lemma CheckedIsFile(certs: Certificates, p: SavedPeer)
    requires Checked(certs, p)
    ensures p.certificate in certs && certs[p.certificate] == Some(CertificateInfo(p.name, p.fingerprint))
  {
  }

  /** After the edit, too, the profile names a file that holds the peer's certificate. */
  lemma AddedIsChecked(s: Saved, info: CertificateInfo, able: bool)
    requires Edited(s, AddPeer(info, able)).Ok? && Genuine(s.certs, info)
    ensures var after := Edited(s, AddPeer(info, able)).value;
            var i := Find(after.config.peers, info.fingerprint);
            && ValidPeers(after.config) && ValidEdges(after.config.edges) && i < |after.config.peers|
            && Checked(after.certs, after.config.peers[i]) && after.config.peers[i].name == info.name
  {
    hide Added, ValidPeers, ValidEdges, Synced, Find, FirstWith, Newcomer, Checked, Genuine;
    var before := Synced(s.config).value;
    var added := Added(s.(config := before), info, able).value;
    AddedProfile(s.(config := before), info, able);
    SyncedFrame(added.config);
    var after := Edited(s, AddPeer(info, able)).value;
    SamePeersFind(after.config.peers, added.config.peers, info.fingerprint);
    var i := Find(added.config.peers, info.fingerprint);
    CheckedSame(added.certs, added.config.peers[i], after.config.peers[i]);
  }

  lemma CheckedSame(certs: Certificates, p: SavedPeer, q: SavedPeer)
    requires Checked(certs, p) && SamePeer(q, p)
    ensures Checked(certs, q) && q.certificate in certs
    ensures certs[q.certificate] == Some(CertificateInfo(q.name, q.fingerprint))
  {
  }

  /** A newcomer behind others is not the profile that is brought up to date. */
  lemma NewcomerUnsynced(s: Saved, info: CertificateInfo, able: bool)
    requires Edited(s, AddPeer(info, able)).Ok? && Genuine(s.certs, info)
    ensures var after := Edited(s, AddPeer(info, able)).value.config;
            s.config.peers != [] && Profile(s.config, info.fingerprint).None? ==>
              && s.config.edges != [] && |after.peers| == |s.config.peers| + 1
              && Find(after.peers, info.fingerprint) == |s.config.peers|
              && after.peers[|s.config.peers|] == Newcomer(s.config, info)
  {
    hide Added, ValidPeer, ValidEdges, Find, FirstWith, Newcomer, Checked;
    var before := Synced(s.config).value;
    SyncedFrame(s.config);
    SamePeersFind(before.peers, s.config.peers, info.fingerprint);
    var added := Added(s.(config := before), info, able).value;
    AddedProfile(s.(config := before), info, able);
    if s.config.peers != [] && Profile(s.config, info.fingerprint).None? {
      NewcomerSame(before, s.config, info);
      ChangedGrows(s.(config := before), AddPeer(info, able));
      LongerFirst(before.peers, added.config.peers, added.config.peerCertificate);
      SyncedFrame(added.config);
      var after := Edited(s, AddPeer(info, able)).value.config;
      FindLast(before.peers, Newcomer(s.config, info));
      NewcomerIs(s.config, info);
      SamePeersFind(after.peers, added.config.peers, info.fingerprint);
    }
  }

  lemma NewcomerSame(c: Config, d: Config, info: CertificateInfo)
    requires c.edges == d.edges && c.edges != []
    ensures Newcomer(c, info) == Newcomer(d, info)
  {
  }

  lemma NewcomerIs(c: Config, info: CertificateInfo)
    requires c.edges != []
    ensures Newcomer(c, info) == SavedPeer(info.fingerprint, info.name, StoredPath(info.fingerprint),
                                           DEFAULT_CONNECTION, [c.edges[0].(id := "default")])
  {
  }

  lemma CanSelect(s: Saved, i: nat, info: CertificateInfo)
    requires ValidPeers(s.config) && ValidEdges(s.config.edges)
    requires i < |s.config.peers| && Find(s.config.peers, info.fingerprint) == i
    requires Checked(s.certs, s.config.peers[i])
    ensures var selected := Edited(s, SelectPeer(info.fingerprint));
            selected.Ok? && selected.value.config.peerName == s.config.peers[i].name
            && selected.value.config.peerCertificate == s.config.peers[i].certificate
  {
    hide ValidPeer, ValidEdges, FirstWith, Find, Checked;
    SelectedExists(s.config);
    var before := Synced(s.config).value;
    SyncedFrame(s.config);
    SamePeersFind(before.peers, s.config.peers, info.fingerprint);
    CheckedSame(s.certs, s.config.peers[i], before.peers[i]);
    CheckedIs(s.certs, before.peers[i]);
    var changed := Activated(before, before.peers[i]);
    assert Changed(s.(config := before), SelectPeer(info.fingerprint)) == Ok(s.(config := changed));
    SyncedValid(s.config);
    ActivatedValid(before, i);
    SelectedExists(changed);
    PeerEdgesValid(before, i);
    SyncedValid(changed);
  }

  lemma CheckedIs(certs: Certificates, p: SavedPeer)
    requires p.certificate in certs && certs[p.certificate] == Some(CertificateInfo(p.name, p.fingerprint))
    ensures Checked(certs, p)
  {
  }

  lemma SelectedExists(c: Config)
    requires ValidPeers(c) && c.peers != []
    ensures FirstWith(c.peers, c.peerCertificate) < |c.peers|
  {
    hide ValidPeer, FirstWith;
    var k :| 0 <= k < |c.peers| && Selects(c, c.peers[k]);
  }

  lemma SyncedValid(c: Config)
    requires ValidPeers(c) && Synced(c).Ok? && ValidEdges(c.edges)
    ensures ValidPeers(Synced(c).value)
  {
    hide ValidEdges, FirstWith, Find;
    SyncedFrame(c);
    if c.peers != [] {
      var after := Synced(c).value;
      var k :| 0 <= k < |c.peers| && Selects(c, c.peers[k]);
      assert SamePeer(after.peers[k], c.peers[k]) && Selects(after, after.peers[k]);
      forall i | 0 <= i < |after.peers| ensures ValidPeer(after.peers[i]) {
        assert SamePeer(after.peers[i], c.peers[i]) && ValidPeer(c.peers[i]);
      }
      forall i, j | 0 <= i < j < |after.peers| ensures after.peers[i].fingerprint != after.peers[j].fingerprint {
        assert SamePeer(after.peers[i], c.peers[i]) && SamePeer(after.peers[j], c.peers[j]);
      }
    }
  }

  lemma ActivatedValid(c: Config, i: nat)
    requires ValidPeers(c) && i < |c.peers|
    ensures ValidPeers(Activated(c, c.peers[i]))
  {
    hide ValidPeer;
    var changed := Activated(c, c.peers[i]);
    assert Selects(changed, changed.peers[i]);
  }

  lemma PeerEdgesValid(c: Config, i: nat)
    requires ValidPeers(c) && i < |c.peers|
    ensures ValidEdges(c.peers[i].edges)
  {
    hide ValidEdges;
    assert ValidPeer(c.peers[i]);
  }

  // ---- Profiles that share a certificate file ----

  lemma SelectedIs(s: Saved, c: Config, j: nat)
    requires DistinctPeers(c.peers) && j < |c.peers|
    requires Changed(s.(config := c), SelectPeer(c.peers[j].fingerprint)).Ok?
    ensures Changed(s.(config := c), SelectPeer(c.peers[j].fingerprint)).value.config == Activated(c, c.peers[j])
  {
    hide Find, Checked;
    FindsItself(c.peers, j);
  }

  /** The settings of two profiles are the same. */
  predicate SameSettings(p: SavedPeer, q: SavedPeer) {
    p.connection == q.connection && p.edges == q.edges
  }

  /** Selecting a peer leaves another profile as it is, once the one in use so far has been brought up to date, exactly
      when it is not the first with the certificate file of the selected one, or has the same settings anyway. */
  lemma SelectingSparesWhen(s: Saved, i: nat, j: nat)
    requires i < |s.config.peers| && j < |s.config.peers|
    requires Edited(s, SelectPeer(s.config.peers[j].fingerprint)).Ok?
    ensures var c, after := Synced(s.config).value, Edited(s, SelectPeer(s.config.peers[j].fingerprint)).value.config;
            && Synced(s.config).Ok? && |c.peers| == |after.peers| == |s.config.peers|
            && (after.peers[i] == c.peers[i]
                <==> i != FirstWith(c.peers, c.peers[j].certificate) || SameSettings(c.peers[i], c.peers[j]))
  {
    hide ValidPeer, ValidEdges, Checked, FirstWith, Find, Changed;
    var c := Synced(s.config).value;
    SelectedIs(s, c, j);
  }

  const SHARED := "peers/shared.pem"
  const FIRST := seq(64, _ => 'a')
  const SECOND := seq(64, _ => 'b')
  const ONE := EdgeConfig("e", "o", Boundary(Left, 0.0, 1.0))

  /** A file that loads, in which two peers share a certificate file and the first is in use. */
  const SHARING := Saved(
    Config("a", SHARED, Listen("1"), [ONE],
           [SavedPeer(FIRST, "a", SHARED, Listen("1"), [ONE]), SavedPeer(SECOND, "b", SHARED, Listen("2"), [ONE])]),
    map[SHARED := Some(CertificateInfo("b", SECOND))])

  lemma OneIsValid()
    ensures ValidEdges([ONE]) && Bytes("a") == 1 && Bytes("b") == 1
  {
    assert "e"[1..] == "" && "o"[1..] == "" && "a"[1..] == "" && "b"[1..] == "" && Bytes("") == 0;
    assert Bytes("e") == 1 && Bytes("o") == 1;
    assert ValidEdge(ONE);
  }

  lemma SharingIsValid()
    ensures ValidPeers(SHARING.config) && UpToDate(SHARING.config)
  {
    OneIsValid();
    hide ValidEdges;
    var c := SHARING.config;
    assert Selects(c, c.peers[0]);
    assert FIRST[0] != SECOND[0];
    assert ValidPeer(c.peers[0]) && ValidPeer(c.peers[1]);
    assert FirstWith(c.peers, SHARED) == 0;
  }

  /** With it, selecting the second peer succeeds and writes its settings into the first one's profile, so that going
      away and coming back does not restore them. */
  lemma SharedPathSpills()
    ensures !OwnPaths(SHARING.config) && ValidPeers(SHARING.config) && UpToDate(SHARING.config)
    ensures var edited := Edited(SHARING, SelectPeer(SECOND));
            && edited.Ok?
            && Profile(edited.value.config, FIRST).Some?
            && Profile(edited.value.config, FIRST).value.connection == Listen("2")
            && Profile(SHARING.config, FIRST).value.connection == Listen("1")
  {
    SharingIsValid();
    OneIsValid();
    SpilledIsValid();
    hide ValidEdges, ValidPeer, ValidPeers, Bytes, FirstWith, Find;
    FoundBySharing();
    var c := SHARING.config;
    assert c.peers[0].certificate == c.peers[1].certificate;
    assert Synced(c).value.peers == c.peers;
    var changed := Activated(c, c.peers[1]);
    assert Changed(SHARING.(config := c), SelectPeer(SECOND)) == Ok(SHARING.(config := changed));
    assert c.peers[0 := c.peers[0].(connection := Listen("2"), edges := [ONE])] == SPILLED.peers;
    assert Synced(changed) == Ok(SPILLED);
  }

  const SPILLED := Config("b", SHARED, Listen("2"), [ONE],
                          [SavedPeer(FIRST, "a", SHARED, Listen("2"), [ONE]),
                           SavedPeer(SECOND, "b", SHARED, Listen("2"), [ONE])])

  lemma FoundBySharing()
    ensures FirstWith(SHARING.config.peers, SHARED) == 0
    ensures Find(SHARING.config.peers, FIRST) == 0 && Find(SHARING.config.peers, SECOND) == 1
    ensures Find(SPILLED.peers, FIRST) == 0
  {
    assert FIRST[0] != SECOND[0];
  }

  lemma SpilledIsValid()
    ensures ValidPeers(SPILLED)
    ensures ValidPeers(Activated(SHARING.config, SHARING.config.peers[1]))
  {
    OneIsValid();
    hide ValidEdges;
    var changed := Activated(SHARING.config, SHARING.config.peers[1]);
    assert Selects(SPILLED, SPILLED.peers[1]) && Selects(changed, changed.peers[1]);
    assert FIRST[0] != SECOND[0];
    assert ValidPeer(SPILLED.peers[0]) && ValidPeer(SPILLED.peers[1]);
    assert ValidPeer(changed.peers[0]) && ValidPeer(changed.peers[1]);
  }

  // ---- The document itself ----

  method IndexWith(peers: seq<SavedPeer>, certificate: string) returns (i: nat)
    ensures i == FirstWith(peers, certificate)
  {
    i := 0;
    while i < |peers| && peers[i].certificate != certificate
      invariant i <= |peers| && forall k :: 0 <= k < i ==> peers[k].certificate != certificate
    {
      i := i + 1;
    }
  }

  method IndexOf(peers: seq<SavedPeer>, fingerprint: string) returns (i: nat)
    ensures i == Find(peers, fingerprint)
  {
    i := 0;
    while i < |peers| && peers[i].fingerprint != fingerprint
      invariant i <= |peers| && forall k :: 0 <= k < i ==> peers[k].fingerprint != fingerprint
    {
      i := i + 1;
    }
  }

  class Document {
    var peerName: string
    var peerCertificate: string
    var connection: Connection
    var edges: seq<EdgeConfig>
    var peers: seq<SavedPeer>
    var certs: Certificates

    function Settings(): Config
      reads this
    {
      Config(peerName, peerCertificate, connection, edges, peers)
    }

    function View(): Saved
      reads this
    {
      Saved(Settings(), certs)
    }

    method SyncSelected() returns (ok: bool)
      modifies this`peers
      ensures ok ==> Synced(old(Settings())) == Ok(Settings())
      ensures !ok ==> Synced(old(Settings())).Failed?
    {
      if peers == [] {
        return true;
      }
      var valid := Validate(Settings());
      var i := IndexWith(peers, peerCertificate);
      if !valid || i == |peers| {
        return false;
      }
      peers := peers[i := peers[i].(connection := connection, edges := edges)];
      return true;
    }

    method Activate(p: SavedPeer)
      modifies this`peerName, this`peerCertificate, this`connection, this`edges
      ensures Settings() == Activated(old(Settings()), p)
    {
      peerName, peerCertificate := p.name, p.certificate;
      connection, edges := p.connection, p.edges;
    }

    method Store(info: CertificateInfo, repair: bool, able: bool) returns (ok: bool)
      modifies this`certs
      ensures ok ==> Stored(old(certs), info, repair, able) == Ok(certs)
      ensures !ok ==> Stored(old(certs), info, repair, able).Failed?
    {
      var path := StoredPath(info.fingerprint);
      if !able || !ValidFingerprint(info.fingerprint) {
        return false;
      }
      if path !in certs || certs[path].None? || certs[path].value.fingerprint != info.fingerprint {
        if path in certs && !repair {
          return false;
        }
        certs := certs[path := Some(info)];
      }
      return true;
    }

    method Migrate(info: CertificateInfo, able: bool) returns (ok: bool)
      modifies this
      ensures ok ==> Migrated(old(View()), info, able) == Ok(View())
      ensures !ok ==> Migrated(old(View()), info, able).Failed?
    {
      hide Stored;
      if peers != [] || peerCertificate !in certs {
        return true;
      }
      if certs[peerCertificate].None? {
        return false;
      }
      var current := certs[peerCertificate].value;
      var p := Adopted(Settings(), current);
      ok := Store(current, current.fingerprint == info.fingerprint, able);
      if ok {
        Activate(p);
        peers := [p];
      }
    }

    method Add(info: CertificateInfo, able: bool) returns (ok: bool)
      modifies this
      ensures ok ==> Added(old(View()), info, able) == Ok(View())
      ensures !ok ==> Added(old(View()), info, able).Failed?
    {
      hide Stored, Migrated, Checked;
      ok := Migrate(info, able);
      if !ok {
        return;
      }
      var i := IndexOf(peers, info.fingerprint);
      if i < |peers| {
        ok := Store(info, true, able);
        return ok && Checked(certs, peers[i]);
      }
      if edges == [] {
        return false;
      }
      ok := Store(info, true, able);
      if ok {
        if peers == [] {
          var p := Adopted(Settings(), info);
          Activate(p);
          peers := [p];
        } else {
          peers := peers + [Newcomer(Settings(), info)];
        }
      }
    }

    method Select(fingerprint: string) returns (ok: bool)
      modifies this
      ensures ok ==> Selected(old(View()), fingerprint) == Ok(View())
      ensures !ok ==> Selected(old(View()), fingerprint).Failed?
    {
      var i := IndexOf(peers, fingerprint);
      if i == |peers| || !Checked(certs, peers[i]) {
        return false;
      }
      Activate(peers[i]);
      return true;
    }
  }
}
