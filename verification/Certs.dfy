// pkg/api/defaults.go, SetDefaultCerts: completing a certificate profile, and the addresses
// that the API server certificate is issued for.
module Certs {

  import opened Options

  // ---- Addresses ----

  const TWO_TO_THE_32: nat := 0x1_0000_0000

  newtype byte = b: int | 0 <= b < 0x100
  type IP = seq<byte>
  type IPv4 = ip: seq<byte> | |ip| == 4 witness [0, 0, 0, 0]

  const INTERNAL_LB_OFFSET: nat := 10
  const LOCALHOST: IPv4 := [127, 0, 0, 1]

  // binary.BigEndian.Uint32 and PutUint32.
  function Uint32(ip: IPv4): (addr: nat)
    ensures addr < TWO_TO_THE_32
  {
    ((ip[0] as nat * 0x100 + ip[1] as nat) * 0x100 + ip[2] as nat) * 0x100 + ip[3] as nat
  }

  function PutUint32(addr: nat): (ip: IPv4)
    requires addr < TWO_TO_THE_32
    ensures Uint32(ip) == addr
  {
    var high := addr / 0x100;
    var higher := high / 0x100;
    [(higher / 0x100) as byte, (higher % 0x100) as byte, (high % 0x100) as byte, (addr % 0x100) as byte]
  }

  lemma Uint32Injective(a: IPv4, b: IPv4)
    requires Uint32(a) == Uint32(b)
    ensures a == b
  {
    assert a[0] == b[0] && a[1] == b[1] && a[2] == b[2] && a[3] == b[3];
  }

  // getNewAddr.  The conversion to 32 bits drops what does not fit; so does the addition.
  function NewAddr(addr: nat, count: nat, offsetMultiplier: int): (r: nat)
    ensures r < TWO_TO_THE_32
  {
    (addr + (count * offsetMultiplier) % TWO_TO_THE_32) % TWO_TO_THE_32
  }

  datatype MasterProfile = MasterProfile(
    count: nat, firstConsecutiveStaticIP: Option<IPv4>, scaleSets: bool, ipAddressCount: int)
  {
    function OffsetMultiplier(): int {
      if scaleSets then ipAddressCount else 1
    }
  }

  // The address of master i, as a number.
  function MasterAddr(m: MasterProfile, first: IPv4, i: nat): (r: nat)
    ensures r < TWO_TO_THE_32
  {
    NewAddr(Uint32(first), i, m.OffsetMultiplier())
  }

  function InternalLb(m: MasterProfile, first: IPv4): IPv4 {
    if m.scaleSets then [first[0], first[1], 255, INTERNAL_LB_OFFSET as byte]
    else [first[0], first[1], first[2], ((first[3] as nat + INTERNAL_LB_OFFSET) % 0x100) as byte]
  }

  // The subject alternative addresses before the one of the service network.
  function MasterIPs(m: MasterProfile, first: IPv4): (ips: seq<IP>)
    ensures |ips| == 3 + (if m.count == 0 then 0 else m.count - 1)
    ensures ips[..3] == [first, LOCALHOST, InternalLb(m, first)]
    ensures forall i :: 1 <= i < m.count ==> ips[2 + i] == PutUint32(MasterAddr(m, first, i))
  {
    [first, LOCALHOST, InternalLb(m, first)]
    + if m.count == 0 then [] else seq(m.count - 1, i requires 0 <= i => PutUint32(MasterAddr(m, first, i + 1)))
  }

  // The list in terms of the first address: the load balancer is at 10 in the last subnet of
  // the network for scale sets and 10 further on otherwise.
  lemma FirstAddresses(m: MasterProfile, first: IPv4)
    ensures MasterIPs(m, first)[..3]
         == [first, [127, 0, 0, 1],
             if m.scaleSets then [first[0], first[1], 255, 10]
             else [first[0], first[1], first[2], ((first[3] as nat + 10) % 256) as byte]]
  {
  }

  // The masters follow each other, at the distance of a master's addresses in scale sets.
  lemma MasterAddress(m: MasterProfile, first: IPv4, i: nat)
    requires 1 <= i < m.count
    ensures |MasterIPs(m, first)[2 + i]| == 4
    ensures Number(MasterIPs(m, first)[2 + i])
         == (Number(first) + i * (if m.scaleSets then m.ipAddressCount else 1)) % 0x1_0000_0000
  {
    hide MasterIPs, PutUint32, Number, Uint32, MasterAddr;
    SameNumber(first);
    SameNumber(PutUint32(MasterAddr(m, first, i)));
    AddrIsDistance(m, first, i);
  }

  lemma AddrIsDistance(m: MasterProfile, first: IPv4, i: nat)
    ensures MasterAddr(m, first, i) == (Uint32(first) + i * (if m.scaleSets then m.ipAddressCount else 1)) % TWO_TO_THE_32
  {
    hide Uint32;
    SameRemainder(Uint32(first), i * m.OffsetMultiplier());
  }

  lemma SameNumber(ip: IPv4)
    ensures Number(ip) == Uint32(ip)
  {
  }

  function Number(ip: IPv4): nat {
    0x100_0000 * ip[0] as nat + 0x1_0000 * ip[1] as nat + 0x100 * ip[2] as nat + ip[3] as nat
  }

  lemma SameRemainder(a: nat, b: int)
    ensures (a + b % TWO_TO_THE_32) % TWO_TO_THE_32 == (a + b) % TWO_TO_THE_32
  {
  }

  // The addresses of masters i < j coincide exactly when a multiple of the offset vanishes.
  lemma SameAddr(m: MasterProfile, first: IPv4, i: nat, j: nat)
    requires i <= j
    ensures MasterAddr(m, first, i) == MasterAddr(m, first, j) <==> ((j - i) * m.OffsetMultiplier()) % TWO_TO_THE_32 == 0
  {
    var k := m.OffsetMultiplier();
    assert j * k == i * k + (j - i) * k;
    Congruent(Uint32(first), i * k, (j - i) * k);
  }

  lemma Congruent(a: nat, b: int, d: int)
    ensures (a + b % TWO_TO_THE_32) % TWO_TO_THE_32 == (a + (b + d) % TWO_TO_THE_32) % TWO_TO_THE_32 <==> d % TWO_TO_THE_32 == 0
  {
  }

  ghost predicate Distinct(m: MasterProfile, first: IPv4) {
    forall i, j :: 0 <= i < j < m.count ==> MasterAddr(m, first, i) != MasterAddr(m, first, j)
  }

  predicate Wraps(m: MasterProfile, d: nat) {
    (d * m.OffsetMultiplier()) % TWO_TO_THE_32 == 0
  }

  lemma DistinctUnlessWrapped(m: MasterProfile, first: IPv4)
    ensures Distinct(m, first) <==> forall d :: 0 < d < m.count ==> !Wraps(m, d)
  {
    forall i, j | 0 <= i < j < m.count
      ensures MasterAddr(m, first, i) == MasterAddr(m, first, j) <==> Wraps(m, j - i)
    {
      SameAddr(m, first, i, j);
    }
    if Distinct(m, first) {
      forall d | 0 < d < m.count
        ensures !Wraps(m, d)
      {
        assert MasterAddr(m, first, 0) != MasterAddr(m, first, d);
      }
    }
  }

  // The usual case: a positive offset whose multiples stay below 2^32.
  lemma DistinctInRange(m: MasterProfile, first: IPv4)
    requires m.OffsetMultiplier() > 0 && (m.count - 1) * m.OffsetMultiplier() < TWO_TO_THE_32
    ensures Distinct(m, first)
  {
    forall d | 0 < d < m.count
      ensures !Wraps(m, d)
    {
      var k := m.OffsetMultiplier();
      assert 0 < d * k <= (m.count - 1) * k;
    }
    DistinctUnlessWrapped(m, first);
  }

  // In an availability set the address of the load balancer is the one of a master exactly
  // when there are more than ten masters and its last byte does not wrap (or when more than
  // 2^32 - 246 masters reach around to it).
  lemma LoadBalancerCollides(m: MasterProfile, first: IPv4)
    requires !m.scaleSets
    ensures (exists i :: 0 <= i < m.count && MasterAddr(m, first, i) == Uint32(InternalLb(m, first)))
       <==> if first[3] < 246 then m.count > 10 else m.count > TWO_TO_THE_32 - 246
  {
    var lb := Uint32(InternalLb(m, first));
    var d := if first[3] < 246 then 10 else TWO_TO_THE_32 - 246;
    assert lb == (Uint32(first) + d) % TWO_TO_THE_32;
    forall i | 0 <= i < m.count
      ensures MasterAddr(m, first, i) == lb <==> i % TWO_TO_THE_32 == d
    {
      AtOffset(Uint32(first), i, d);
    }
    if m.count > d {
      assert MasterAddr(m, first, d) == lb;
    }
  }

  lemma AtOffset(a: nat, i: nat, d: nat)
    requires a < TWO_TO_THE_32 && d < TWO_TO_THE_32
    ensures NewAddr(a, i, 1) == (a + d) % TWO_TO_THE_32 <==> i % TWO_TO_THE_32 == d
  {
  }

  // ---- Certificates ----

  // The text of a certificate, and the text of the certificate of the authority that signed it.
  datatype Certificate = Certificate(pem: string, issuer: string)

  const NO_CERTIFICATE := Certificate("", "")

  datatype Pair = Pair(certificate: Certificate, privateKey: string) {
    predicate Complete() {
      certificate.pem != "" && privateKey != ""
    }

    predicate SignedBy(ca: Pair) {
      certificate.issuer == ca.certificate.pem
    }
  }

  const NO_PAIR := Pair(NO_CERTIFICATE, "")

  datatype Group = Ca | ApiServer | KubeConfig | Client | Etcd

  // The contents of a CertificateProfile.
  datatype Certs = Certs(
    ca: Pair, apiServer: Pair, kubeConfig: Pair, client: Pair,
    etcdServer: Pair, etcdClient: Pair, peerCertificates: seq<Certificate>, peerPrivateKeys: seq<string>)
  {
    predicate PeersComplete(count: nat) {
      && |peerCertificates| == count == |peerPrivateKeys|
      && forall i :: 0 <= i < count ==> peerCertificates[i].pem != "" && peerPrivateKeys[i] != ""
    }

    predicate Present(g: Group, count: nat) {
      match g
      case Ca => ca.Complete()
      case ApiServer => apiServer.Complete()
      case KubeConfig => kubeConfig.Complete()
      case Client => client.Complete()
      case Etcd => PeersComplete(count) && etcdClient.Complete() && etcdServer.Complete()
    }

    ghost predicate AllPresent(count: nat) {
      forall g: Group :: Present(g, count)
    }

    // Every certificate of the group was signed by the authority.
    predicate SignedBy(g: Group, authority: Pair) {
      match g
      case Ca => true
      case ApiServer => apiServer.SignedBy(authority)
      case KubeConfig => kubeConfig.SignedBy(authority)
      case Client => client.SignedBy(authority)
      case Etcd =>
        && etcdServer.SignedBy(authority) && etcdClient.SignedBy(authority)
        && forall i :: 0 <= i < |peerCertificates| ==> peerCertificates[i].issuer == authority.certificate.pem
    }

    // The group is the same in both profiles.
    predicate Agrees(other: Certs, g: Group) {
      match g
      case Ca => ca == other.ca
      case ApiServer => apiServer == other.apiServer
      case KubeConfig => kubeConfig == other.kubeConfig
      case Client => client == other.client
      case Etcd =>
        && etcdServer == other.etcdServer && etcdClient == other.etcdClient
        && peerCertificates == other.peerCertificates && peerPrivateKeys == other.peerPrivateKeys
    }
  }

  const NO_CERTS := Certs(NO_PAIR, NO_PAIR, NO_PAIR, NO_PAIR, NO_PAIR, NO_PAIR, [], [])

  // What CreatePki returns: its pairs are signed by the authority it is given.
  datatype Leaves = Leaves(
    apiServer: Pair, kubeConfig: Pair, client: Pair, etcdServer: Pair, etcdClient: Pair, peers: seq<Pair>)
  {
    predicate Complete(count: nat) {
      && apiServer.Complete() && kubeConfig.Complete() && client.Complete()
      && etcdServer.Complete() && etcdClient.Complete()
      && |peers| == count && forall i :: 0 <= i < count ==> peers[i].Complete()
    }

    predicate SignedBy(authority: Pair) {
      && apiServer.SignedBy(authority) && kubeConfig.SignedBy(authority) && client.SignedBy(authority)
      && etcdServer.SignedBy(authority) && etcdClient.SignedBy(authority)
      && forall i :: 0 <= i < |peers| ==> peers[i].SignedBy(authority)
    }

    // All of them as a profile of the given authority.
    function Under(ca: Pair): Certs {
      Certs(ca, apiServer, kubeConfig, client, etcdServer, etcdClient,
            seq(|peers|, i requires 0 <= i < |peers| => peers[i].certificate),
            seq(|peers|, i requires 0 <= i < |peers| => peers[i].privateKey))
    }
  }

  // The generators and the rest of the cluster model: a new authority, the pairs issued
  // under an authority, and the first address of the service network.  Each may fail.
  datatype World = World(newCa: Option<Pair>, issue: Pair -> Option<Leaves>, serviceIP: Option<IP>)

  // Generators that succeed return complete pairs, signed by the given authority, with one
  // peer for each master.
  ghost predicate Sound(w: World, count: nat) {
    && (w.newCa.Some? ==> w.newCa.value.Complete())
    && forall ca: Pair :: w.issue(ca).Some? ==> w.issue(ca).value.Complete(count) && w.issue(ca).value.SignedBy(ca)
  }

  class CertificateProfile {
    var ca: Pair
    var apiServer: Pair
    var kubeConfig: Pair
    var client: Pair
    var etcdServer: Pair
    var etcdClient: Pair
    var peerCertificates: seq<Certificate>
    var peerPrivateKeys: seq<string>

    constructor ()
      ensures Value() == NO_CERTS
    {
      ca, apiServer, kubeConfig, client := NO_PAIR, NO_PAIR, NO_PAIR, NO_PAIR;
      etcdServer, etcdClient, peerCertificates, peerPrivateKeys := NO_PAIR, NO_PAIR, [], [];
    }

    method AssignPeers(peers: seq<Pair>, count: nat)
      requires |peers| == count
      modifies `peerCertificates, `peerPrivateKeys
      ensures |peerCertificates| == count == |peerPrivateKeys|
      ensures forall j :: 0 <= j < count ==> peerCertificates[j] == peers[j].certificate
      ensures forall j :: 0 <= j < count ==> peerPrivateKeys[j] == peers[j].privateKey
    {
      peerCertificates := seq(count, _ => NO_CERTIFICATE);
      peerPrivateKeys := seq(count, _ => "");
      for i := 0 to |peers|
        invariant |peerCertificates| == count == |peerPrivateKeys|
        invariant forall j :: 0 <= j < i ==> peerCertificates[j] == peers[j].certificate
        invariant forall j :: 0 <= j < i ==> peerPrivateKeys[j] == peers[j].privateKey
      {
        peerCertificates := peerCertificates[i := peers[i].certificate];
        peerPrivateKeys := peerPrivateKeys[i := peers[i].privateKey];
      }
    }

    function Value(): Certs
      reads this
    {
      Certs(ca, apiServer, kubeConfig, client, etcdServer, etcdClient, peerCertificates, peerPrivateKeys)
    }
  }

  // certsAlreadyPresent.
  method CertsAlreadyPresent(c: CertificateProfile?, m: nat) returns (g: map<Group, bool>)
    ensures forall k: Group :: k in g
    ensures c == null ==> forall k: Group :: !g[k]
    ensures c != null ==> forall k: Group :: g[k] == c.Value().Present(k, m)
  {
    g := map[Ca := false, ApiServer := false, KubeConfig := false, Client := false, Etcd := false];
    if c != null {
      var etcdPeer := true;
      if |c.peerCertificates| != m || |c.peerPrivateKeys| != m {
        etcdPeer := false;
      } else {
        for i := 0 to m
          invariant etcdPeer == forall j :: 0 <= j < i ==> c.peerCertificates[j].pem != "" && c.peerPrivateKeys[j] != ""
        {
          if !(|c.peerCertificates[i].pem| > 0) || !(|c.peerPrivateKeys[i]| > 0) {
            etcdPeer := false;
          }
        }
      }
      g := map[
        Ca := c.ca.Complete(), ApiServer := c.apiServer.Complete(), KubeConfig := c.kubeConfig.Complete(),
        Client := c.client.Complete(), Etcd := etcdPeer && c.etcdClient.Complete() && c.etcdServer.Complete()];
    }
    forall k: Group
      ensures k in g
    {
      match k case Ca => case ApiServer => case KubeConfig => case Client => case Etcd =>
    }
  }

  // areAllTrue.
  method AreAllTrue(m: map<Group, bool>) returns (all: bool)
    ensures all <==> forall k :: k in m ==> m[k]
  {
    var todo := m.Keys;
    while todo != {}
      invariant todo <= m.Keys && forall k :: k in m.Keys - todo ==> m[k]
      decreases |todo|
    {
      var k :| k in todo;
      todo := todo - {k};
      if !m[k] {
        return false;
      }
    }
    return true;
  }

  // ---- Completion ----

  // What a successful completion makes of a profile: the authority is the supplied one or a
  // new one, and every other group is kept if it was supplied together with the authority and
  // issued under it if not.
  ghost predicate Completes(before: Certs, after: Certs, count: nat, w: World) {
    && (if before.Present(Ca, count) then after.ca == before.ca else w.newCa == Some(after.ca))
    && w.issue(after.ca).Some?
    && forall g: Group :: KeptOrIssued(before, after, count, w.issue(after.ca).value, g)
  }

  ghost predicate KeptOrIssued(before: Certs, after: Certs, count: nat, leaves: Leaves, g: Group) {
    if g == Ca || (before.Present(Ca, count) && before.Present(g, count)) then g == Ca || after.Agrees(before, g)
    else after.Agrees(leaves.Under(after.ca), g)
  }

  // What a failure leaves: a new authority, if it got that far, and nothing else.
  function Abandoned(before: Certs, count: nat, m: MasterProfile, w: World): Certs {
    if before.Present(Ca, count) || m.firstConsecutiveStaticIP.None? || w.newCa.None? then before
    else before.(ca := w.newCa.value)
  }

  // The authority that the new pairs will be issued under.
  function Authority(before: Certs, count: nat, w: World): Option<Pair> {
    if before.Present(Ca, count) then Some(before.ca) else w.newCa
  }

  // Whether everything that completing the profile asks for is there.
  predicate Possible(before: Certs, m: MasterProfile, w: World) {
    && m.firstConsecutiveStaticIP.Some? && w.serviceIP.Some?
    && Authority(before, m.count, w).Some? && w.issue(Authority(before, m.count, w).value).Some?
  }

  lemma CompletePresent(before: Certs, after: Certs, count: nat, w: World)
    requires Completes(before, after, count, w) && Sound(w, count)
    ensures after.AllPresent(count)
  {
    var leaves := w.issue(after.ca).value;
    assert leaves.Complete(count);
    forall g: Group
      ensures after.Present(g, count)
    {
      assert g != Ca ==> leaves.Under(after.ca).Present(g, count);
      assert KeptOrIssued(before, after, count, leaves, g);
    }
  }

  lemma NoneAbsent(count: nat)
    ensures forall g: Group :: !NO_CERTS.Present(g, count)
  {
  }

  // The addresses up to the loop over the other masters.
  method CollectIPs(m: MasterProfile, first: IPv4) returns (ips: seq<IP>)
    ensures ips == MasterIPs(m, first)
  {
    hide PutUint32, Uint32, NewAddr, MasterIPs;
    ips := [first, LOCALHOST];
    if m.scaleSets {
      ips := ips + [[first[0], first[1], 255, INTERNAL_LB_OFFSET as byte]];
    } else {
      ips := ips + [[first[0], first[1], first[2], ((first[3] as nat + INTERNAL_LB_OFFSET) % 0x100) as byte]];
    }
    var offsetMultiplier := if m.scaleSets then m.ipAddressCount else 1;
    var addr := Uint32(first);
    ghost var all := MasterIPs(m, first);
    var i := 1;
    while i < m.count
      invariant 1 <= i && (i <= m.count || i == 1)
      invariant |ips| == 2 + i <= |all| && ips == all[..2 + i]
    {
      assert all[2 + i] == PutUint32(MasterAddr(m, first, i));
      assert all[..2 + i + 1] == all[..2 + i] + [all[2 + i]];
      ips := ips + [PutUint32(NewAddr(addr, i, offsetMultiplier))];
      i := i + 1;
    }
  }

  // Every group was signed by the profile's authority, or supplied together with it.
  ghost predicate Vouched(supplied: Certs, final: Certs, count: nat) {
    forall g: Group :: VouchedGroup(supplied, final, count, g)
  }

  ghost predicate VouchedGroup(supplied: Certs, final: Certs, count: nat, g: Group) {
    || final.SignedBy(g, final.ca)
    || (supplied.Present(Ca, count) && supplied.ca == final.ca && supplied.Present(g, count) && final.Agrees(supplied, g))
  }

  lemma EveryPairHasItsCa(before: Certs, after: Certs, count: nat, w: World)
    requires Completes(before, after, count, w) && Sound(w, count)
    ensures Vouched(before, after, count)
  {
    var leaves := w.issue(after.ca).value;
    assert leaves.SignedBy(after.ca);
    forall g: Group
      ensures VouchedGroup(before, after, count, g)
    {
      assert KeptOrIssued(before, after, count, leaves, g);
      IssuedSigned(leaves, after, g);
    }
  }

  lemma IssuedSigned(leaves: Leaves, after: Certs, g: Group)
    requires leaves.SignedBy(after.ca)
    ensures after.Agrees(leaves.Under(after.ca), g) ==> after.SignedBy(g, after.ca)
  {
    assert leaves.Under(after.ca).SignedBy(g, after.ca);
  }

  class ContainerService {
    var masterProfile: Option<MasterProfile>
    var certificateProfile: CertificateProfile?

    constructor (masterProfile: Option<MasterProfile>, certificateProfile: CertificateProfile?)
      ensures this.masterProfile == masterProfile && this.certificateProfile == certificateProfile
    {
      this.masterProfile, this.certificateProfile := masterProfile, certificateProfile;
    }

    function Certificates(): Certs
      reads this, certificateProfile
    {
      if certificateProfile == null then NO_CERTS else certificateProfile.Value()
    }

    // The group assignments at the end of SetDefaultCerts.
    method AssignLeaves(provided: map<Group, bool>, leaves: Leaves, count: nat, ghost was: Certs, ghost w: World)
      requires forall k: Group :: k in provided && provided[k] == was.Present(k, count)
      requires certificateProfile != null && leaves.Complete(count)
      requires Certificates() == was.(ca := certificateProfile.ca)
      requires if provided[Ca] then was.ca == certificateProfile.ca else w.newCa == Some(certificateProfile.ca)
      requires w.issue(certificateProfile.ca) == Some(leaves)
      modifies certificateProfile
      ensures Completes(was, Certificates(), count, w)
    {
      hide Certs.Present, Leaves.SignedBy;
      var c := certificateProfile;
      if !provided[ApiServer] || !provided[Ca] {
        c.apiServer := leaves.apiServer;
      }
      if !provided[Client] || !provided[Ca] {
        c.client := leaves.client;
      }
      if !provided[KubeConfig] || !provided[Ca] {
        c.kubeConfig := leaves.kubeConfig;
      }
      if !provided[Etcd] || !provided[Ca] {
        c.etcdServer, c.etcdClient := leaves.etcdServer, leaves.etcdClient;
        c.AssignPeers(leaves.peers, count);
      }
    }

    // SetDefaultCerts: whether certificates were generated, the addresses, and no error.
    method SetDefaultCerts(w: World) returns (generated: bool, ips: seq<IP>, ok: bool)
      requires masterProfile.Some? ==> Sound(w, masterProfile.value.count)
      modifies this`certificateProfile, certificateProfile
      ensures certificateProfile == old(certificateProfile) || fresh(certificateProfile)
      ensures generated ==> masterProfile.Some?
      ensures masterProfile.None? ==> !generated && ok && ips == [] && Certificates() == old(Certificates())
      ensures masterProfile.Some? && old(Certificates()).AllPresent(masterProfile.value.count) ==>
                !generated && ok && ips == [] && Certificates() == old(Certificates())
      ensures masterProfile.Some? && !old(Certificates()).AllPresent(masterProfile.value.count) ==>
                && ok == generated == Possible(old(Certificates()), masterProfile.value, w)
                && if ok then
                     && Completes(old(Certificates()), Certificates(), masterProfile.value.count, w)
                     && ips == MasterIPs(masterProfile.value, masterProfile.value.firstConsecutiveStaticIP.value) + [w.serviceIP.value]
                   else
                     Certificates() == Abandoned(old(Certificates()), masterProfile.value.count, masterProfile.value, w)
      ensures generated ==> Vouched(old(Certificates()), Certificates(), masterProfile.value.count)
    {
      if masterProfile.None? {
        return false, [], true;
      }
      var m := masterProfile.value;
      ghost var was := Certificates();
      var provided := CertsAlreadyPresent(certificateProfile, m.count);
      var all := AreAllTrue(provided);
      NoneAbsent(m.count);
      assert forall g: Group :: provided[g] == was.Present(g, m.count);
      if all {
        return false, [], true;
      }
      if m.firstConsecutiveStaticIP.None? {
        return false, [], false;
      }
      ips := CollectIPs(m, m.firstConsecutiveStaticIP.value);
      if certificateProfile == null {
        certificateProfile := new CertificateProfile();
      }
      if !provided[Ca] {
        if w.newCa.None? {
          return false, ips, false;
        }
        certificateProfile.ca := w.newCa.value;
      }
      if w.serviceIP.None? {
        return false, ips, false;
      }
      ips := ips + [w.serviceIP.value];
      var leaves := w.issue(certificateProfile.ca);
      if leaves.None? {
        return false, ips, false;
      }
      AssignLeaves(provided, leaves.value, m.count, was, w);
      EveryPairHasItsCa(was, Certificates(), m.count, w);
      return true, ips, true;
    }
  }

  // ---- What completion achieves ----

  // A completed profile is not touched again, whatever the generators would return.
  method CompleteTwice(cs: ContainerService, w: World, w2: World) returns (ok: bool, again: bool, ghost between: Certs)
    requires cs.masterProfile.Some? ==> Sound(w, cs.masterProfile.value.count) && Sound(w2, cs.masterProfile.value.count)
    modifies cs`certificateProfile, cs.certificateProfile
    ensures ok ==> !again && cs.Certificates() == between
  {
    var generated, ips;
    generated, ips, ok := cs.SetDefaultCerts(w);
    between, again := cs.Certificates(), false;
    if ok {
      if generated {
        CompletePresent(old(cs.Certificates()), between, cs.masterProfile.value.count, w);
      }
      again, ips, ok := cs.SetDefaultCerts(w2);
      assert ok;
    }
  }

  // A new authority has signed nothing that is in the profile already.
  ghost predicate Unused(ca: Pair, certs: Certs) {
    && !certs.apiServer.SignedBy(ca) && !certs.kubeConfig.SignedBy(ca) && !certs.client.SignedBy(ca)
    && !certs.etcdServer.SignedBy(ca)
  }

  // A failure after the authority was generated leaves that authority in the profile.  The
  // retry takes it for a supplied one and keeps what was supplied without any authority: every
  // group is vouched for exactly if none was supplied.
  lemma RetryAfterFailure(supplied: Certs, retried: Certs, m: MasterProfile, w: World, w2: World)
    requires !supplied.Present(Ca, m.count) && Sound(w, m.count) && Sound(w2, m.count)
    requires m.firstConsecutiveStaticIP.Some? && w.newCa.Some? && Unused(w.newCa.value, supplied)
    requires Completes(Abandoned(supplied, m.count, m, w), retried, m.count, w2)
    ensures retried.ca == w.newCa.value
    ensures Vouched(supplied, retried, m.count) <==> forall g: Group :: g != Ca ==> !supplied.Present(g, m.count)
  {
    var abandoned := Abandoned(supplied, m.count, m, w);
    assert abandoned.ca == w.newCa.value && abandoned.Present(Ca, m.count);
    var leaves := w2.issue(retried.ca).value;
    assert leaves.SignedBy(retried.ca);
    forall g: Group
      ensures VouchedGroup(supplied, retried, m.count, g) <==> g == Ca || !supplied.Present(g, m.count)
    {
      assert KeptOrIssued(abandoned, retried, m.count, leaves, g);
      IssuedSigned(leaves, retried, g);
    }
  }

  // The two calls: the first fails after it stored a new authority, the second succeeds.
  method FailThenRetry(cs: ContainerService, w: World, w2: World) returns (failed: bool, retried: bool)
    requires cs.masterProfile.Some? ==> Sound(w, cs.masterProfile.value.count) && Sound(w2, cs.masterProfile.value.count)
    requires w.newCa.Some? ==> Unused(w.newCa.value, cs.Certificates())
    modifies cs`certificateProfile, cs.certificateProfile
    ensures failed && retried ==> cs.masterProfile.Some?
    ensures failed && retried && !old(cs.Certificates()).Present(Ca, cs.masterProfile.value.count) && w.newCa.Some? ==>
              (Vouched(old(cs.Certificates()), cs.Certificates(), cs.masterProfile.value.count)
               <==> forall g: Group :: g != Ca ==> !old(cs.Certificates()).Present(g, cs.masterProfile.value.count))
  {
    ghost var supplied := cs.Certificates();
    var generated, ips, ok := cs.SetDefaultCerts(w);
    failed, retried := !ok, false;
    if failed {
      retried, ips, ok := cs.SetDefaultCerts(w2);
      if retried && !supplied.Present(Ca, cs.masterProfile.value.count) && w.newCa.Some? {
        RetryAfterFailure(supplied, cs.Certificates(), cs.masterProfile.value, w, w2);
      }
    }
  }

  // A profile with an API server pair and no authority, before such a failure.
  lemma StrangerKept(retried: Certs, m: MasterProfile, w: World, w2: World)
    requires m.firstConsecutiveStaticIP.Some? && w.newCa.Some? && Sound(w, m.count) && Sound(w2, m.count)
    requires w.newCa.value.certificate.pem !in {"", "old authority"}
    requires var supplied := NO_CERTS.(apiServer := Pair(Certificate("server", "old authority"), "key"));
             Completes(Abandoned(supplied, m.count, m, w), retried, m.count, w2)
    ensures retried.apiServer.certificate.issuer == "old authority" && !retried.apiServer.SignedBy(retried.ca)
  {
    var supplied := NO_CERTS.(apiServer := Pair(Certificate("server", "old authority"), "key"));
    var abandoned := Abandoned(supplied, m.count, m, w);
    assert abandoned.Present(ApiServer, m.count) && abandoned.Present(Ca, m.count);
    assert KeptOrIssued(abandoned, retried, m.count, w2.issue(retried.ca).value, ApiServer);
  }
}
