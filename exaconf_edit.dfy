/**
 * The record edits of `exaconf modify-node`, `modify-volume` and
 * `modify-backup-schedule`: the configuration section a command fetched is
 * updated in place, field by field, from the command's options.
 */
module ExaconfEdit {
  import opened Wrappers
  import opened ExaconfArgs

  /** A configuration or command attribute value; a command's `func`
      attribute holds the subcommand's function, known by its name. */
  datatype Value = Null | Text(s: string) | Number(n: int) | Numbers(ns: seq<int>) | Texts(ts: seq<string>) | Flag(b: bool)
                 | Callable(name: string)

  /** A configuration section whose options the commands set and delete. */
  class ConfRecord {
    var fields: map<string, Value>

    constructor(fields0: map<string, Value>)
      ensures fields == fields0
    {
      fields := fields0;
    }
  }

  /** How a subcommand ends: it returns a value (None, or 1 after printing
      a complaint), raises an exception, or calls `sys.exit`. */
  datatype Outcome = Returned(value: Option<int>) | Raised(error: string) | Exited(status: int)

  /** The message of the KeyError an absent `_all` section raises. */
  const KeyErrorAll: string := "KeyError: '_all'"

  /** The same field given or not, for a dictionary. */
  predicate SameField(f: map<string, Value>, g: map<string, Value>, k: string) {
    (k in f <==> k in g) && (k in f ==> f[k] == g[k])
  }

  /** One conditional assignment, and one conditional deletion, of an
      option: the steps the commands take one after the other. */
  function Put(m: map<string, Value>, c: bool, k: string, v: Value): map<string, Value> {
    if c then m[k := v] else m
  }

  function Drop(m: map<string, Value>, c: bool, k: string): map<string, Value> {
    if c then m - {k} else m
  }

  /** The option `k` as a one-entry dictionary when `c` holds. */
  function Opt(c: bool, k: string, v: Value): map<string, Value> {
    if c then map[k := v] else map[]
  }

  lemma UnionOpt(m: map<string, Value>, c: bool, k: string, v: Value)
    ensures m + Opt(c, k, v) == Put(m, c, k, v)
  {
  }

  lemma UnionAssoc(m: map<string, Value>, x: map<string, Value>, y: map<string, Value>)
    ensures m + (x + y) == (m + x) + y
  {
  }

  /** Key `k` of `e` is `v` when `c` holds, and otherwise as in `f`. */
  predicate Edited(e: map<string, Value>, f: map<string, Value>, c: bool, k: string, v: Value) {
    if c then k in e && e[k] == v else SameField(e, f, k)
  }

  lemma PutEdited(m: map<string, Value>, c: bool, k: string, v: Value)
    ensures Edited(Put(m, c, k, v), m, c, k, v)
  {
  }

  lemma PutOther(m: map<string, Value>, c: bool, k: string, v: Value, j: string)
    requires j != k
    ensures SameField(Put(m, c, k, v), m, j)
  {
  }

  function TextOf(o: Option<string>): Value {
    if o.Some? then Text(o.value) else Null
  }

  // ----- modify-node -----

  datatype NodeArgs = NodeArgs(privNet: Option<string>, pubNet: Option<string>,
                               privIp: Option<string>, pubIp: Option<string>)

  /** Network and address given for the same side. */
  predicate Conflicting(a: NodeArgs) {
    (Given(a.pubNet) && Given(a.pubIp)) || (Given(a.privNet) && Given(a.privIp))
  }

  function Entry(k: string, o: Option<string>): map<string, Value> {
    Opt(Given(o), k, TextOf(o))
  }

  function Gone(k: string, o: Option<string>): set<string> {
    if Given(o) then {k} else {}
  }

  /** The options given, each under its own key. */
  function NodeAssigned(a: NodeArgs): map<string, Value> {
    Entry("private_net", a.privNet) + Entry("public_net", a.pubNet) +
    Entry("private_ip", a.privIp) + Entry("public_ip", a.pubIp)
  }

  /** For every option given, the other key of its side. */
  function NodeRemoved(a: NodeArgs): set<string> {
    Gone("private_ip", a.privNet) + Gone("public_ip", a.pubNet) +
    Gone("private_net", a.privIp) + Gone("public_net", a.pubIp)
  }

  /** The node section after the edit: the partners of the given options
      dropped, the given options set. */
  function NodeEdit(f: map<string, Value>, a: NodeArgs): map<string, Value> {
    (f - NodeRemoved(a)) + NodeAssigned(a)
  }

  /** One step of `modify_node`: a given option is set and the other key
      of its side deleted. */
  function NodeStep(m: map<string, Value>, o: Option<string>, setKey: string, delKey: string): map<string, Value> {
    Drop(Put(m, Given(o), setKey, TextOf(o)), Given(o), delKey)
  }

  /** The four steps of `modify_node` in their order. */
  function NodeSteps(f: map<string, Value>, a: NodeArgs): map<string, Value> {
    var m1 := NodeStep(f, a.privNet, "private_net", "private_ip");
    var m2 := NodeStep(m1, a.pubNet, "public_net", "public_ip");
    var m3 := NodeStep(m2, a.privIp, "private_ip", "private_net");
    NodeStep(m3, a.pubIp, "public_ip", "public_net")
  }

  lemma NodeStepOther(m: map<string, Value>, o: Option<string>, setKey: string, delKey: string, k: string)
    requires k != setKey && k != delKey
    ensures SameField(NodeStep(m, o, setKey, delKey), m, k)
  {
  }

  /** Without conflicting options the steps commute, so their effect is
      the edit. */
  lemma NodeStepsAreEdit(f: map<string, Value>, a: NodeArgs)
    requires !Conflicting(a)
    ensures NodeSteps(f, a) == NodeEdit(f, a)
  {
    var s, e := NodeSteps(f, a), NodeEdit(f, a);
    forall k
      ensures (k in s <==> k in e) && (k in s ==> s[k] == e[k])
    {
      if k == "private_net" || k == "private_ip" {
        NodeStepsPrivate(f, a, k);
      } else if k == "public_net" || k == "public_ip" {
        NodeStepsPublic(f, a, k);
      } else {
        NodeStepsOther(f, a, k);
      }
    }
  }

  lemma NodeStepsPrivate(f: map<string, Value>, a: NodeArgs, k: string)
    requires !Conflicting(a) && (k == "private_net" || k == "private_ip")
    ensures SameField(NodeSteps(f, a), NodeEdit(f, a), k)
  {
    var m1 := NodeStep(f, a.privNet, "private_net", "private_ip");
    var m2 := NodeStep(m1, a.pubNet, "public_net", "public_ip");
    var m3 := NodeStep(m2, a.privIp, "private_ip", "private_net");
    NodeStepOther(m1, a.pubNet, "public_net", "public_ip", k);
    NodeStepOther(m3, a.pubIp, "public_ip", "public_net", k);
  }

  lemma NodeStepsPublic(f: map<string, Value>, a: NodeArgs, k: string)
    requires !Conflicting(a) && (k == "public_net" || k == "public_ip")
    ensures SameField(NodeSteps(f, a), NodeEdit(f, a), k)
  {
    var m1 := NodeStep(f, a.privNet, "private_net", "private_ip");
    var m2 := NodeStep(m1, a.pubNet, "public_net", "public_ip");
    var m3 := NodeStep(m2, a.privIp, "private_ip", "private_net");
    NodeStepOther(f, a.privNet, "private_net", "private_ip", k);
    NodeStepOther(m2, a.privIp, "private_ip", "private_net", k);
  }

  lemma NodeStepsOther(f: map<string, Value>, a: NodeArgs, k: string)
    requires k != "private_net" && k != "private_ip" && k != "public_net" && k != "public_ip"
    ensures SameField(NodeSteps(f, a), NodeEdit(f, a), k)
  {
    var m1 := NodeStep(f, a.privNet, "private_net", "private_ip");
    var m2 := NodeStep(m1, a.pubNet, "public_net", "public_ip");
    var m3 := NodeStep(m2, a.privIp, "private_ip", "private_net");
    NodeStepOther(f, a.privNet, "private_net", "private_ip", k);
    NodeStepOther(m1, a.pubNet, "public_net", "public_ip", k);
    NodeStepOther(m2, a.privIp, "private_ip", "private_net", k);
    NodeStepOther(m3, a.pubIp, "public_ip", "public_net", k);
    NodeEditOthers(f, a, k);
  }

  /** Network and address of one side are never both present. */
  predicate Exclusive(f: map<string, Value>, netKey: string, ipKey: string) {
    !(netKey in f && ipKey in f)
  }

  /** A side whose network is given holds that network and no address; a
      side whose address is given holds that address and no network; a side
      given neither is unchanged. */
  lemma NodeEditSide(f: map<string, Value>, a: NodeArgs)
    requires !Conflicting(a)
    ensures Given(a.privNet) ==> NodeEdit(f, a)["private_net"] == Text(a.privNet.value) && "private_ip" !in NodeEdit(f, a)
    ensures Given(a.privIp) ==> NodeEdit(f, a)["private_ip"] == Text(a.privIp.value) && "private_net" !in NodeEdit(f, a)
    ensures !Given(a.privNet) && !Given(a.privIp) ==>
              SameField(NodeEdit(f, a), f, "private_net") && SameField(NodeEdit(f, a), f, "private_ip")
    ensures Given(a.pubNet) ==> NodeEdit(f, a)["public_net"] == Text(a.pubNet.value) && "public_ip" !in NodeEdit(f, a)
    ensures Given(a.pubIp) ==> NodeEdit(f, a)["public_ip"] == Text(a.pubIp.value) && "public_net" !in NodeEdit(f, a)
    ensures !Given(a.pubNet) && !Given(a.pubIp) ==>
              SameField(NodeEdit(f, a), f, "public_net") && SameField(NodeEdit(f, a), f, "public_ip")
  {
  }

  /** Options other than the four network keys are untouched. */
  lemma NodeEditOthers(f: map<string, Value>, a: NodeArgs, k: string)
    requires k != "private_net" && k != "private_ip" && k != "public_net" && k != "public_ip"
    ensures SameField(NodeEdit(f, a), f, k)
  {
  }

  /** The edit keeps each side's network and address exclusive. */
  lemma NodeEditKeepsExclusive(f: map<string, Value>, a: NodeArgs)
    requires !Conflicting(a)
    requires Exclusive(f, "private_net", "private_ip") && Exclusive(f, "public_net", "public_ip")
    ensures Exclusive(NodeEdit(f, a), "private_net", "private_ip")
    ensures Exclusive(NodeEdit(f, a), "public_net", "public_ip")
  {
    NodeEditSide(f, a);
  }

  /** `modify_node`: a missing node is refused (return 1), except that an
      absent `_all` raises KeyError; conflicting options are refused too;
      otherwise the node's section is edited. Only that section changes. */
  method ModifyNode(nodes: map<string, ConfRecord>, nodeId: string, a: NodeArgs) returns (o: Outcome)
    modifies nodes.Values
    ensures nodeId !in nodes ==> o == (if nodeId == "_all" then Raised(KeyErrorAll) else Returned(Some(1)))
    ensures nodeId in nodes ==> o == (if Conflicting(a) then Returned(Some(1)) else Returned(None))
    ensures o == Returned(None) ==> nodeId in nodes && nodes[nodeId].fields == NodeEdit(old(nodes[nodeId].fields), a)
    ensures forall r :: r in nodes.Values && (o != Returned(None) || r != nodes[nodeId]) ==> r.fields == old(r.fields)
  {
    if nodeId != "_all" && nodeId !in nodes {
      return Returned(Some(1));
    }
    if nodeId !in nodes {
      return Raised(KeyErrorAll);
    }
    var conf := nodes[nodeId];
    if Conflicting(a) {
      return Returned(Some(1));
    }
    var fields := conf.fields;
    ghost var g := fields;
    if Given(a.privNet) {
      fields := fields["private_net" := Text(a.privNet.value)];
      if "private_ip" in fields {
        fields := fields - {"private_ip"};
      }
    }
    assert fields == NodeStep(g, a.privNet, "private_net", "private_ip");
    g := fields;
    if Given(a.pubNet) {
      fields := fields["public_net" := Text(a.pubNet.value)];
      if "public_ip" in fields {
        fields := fields - {"public_ip"};
      }
    }
    assert fields == NodeStep(g, a.pubNet, "public_net", "public_ip");
    g := fields;
    if Given(a.privIp) {
      fields := fields["private_ip" := Text(a.privIp.value)];
      if "private_net" in fields {
        fields := fields - {"private_net"};
      }
    }
    assert fields == NodeStep(g, a.privIp, "private_ip", "private_net");
    g := fields;
    if Given(a.pubIp) {
      fields := fields["public_ip" := Text(a.pubIp.value)];
      if "public_net" in fields {
        fields := fields - {"public_net"};
      }
    }
    assert fields == NodeStep(g, a.pubIp, "public_ip", "public_net");
    assert fields == NodeSteps(conf.fields, a);
    NodeStepsAreEdit(conf.fields, a);
    conf.fields := fields;
    return Returned(None);
  }

  // ----- modify-volume -----

  datatype VolumeArgs = VolumeArgs(owner: Option<string>, size: Option<string>, disk: Option<string>,
                                   nodes: Option<string>, numMasterNodes: Option<int>,
                                   labels: Option<string>, redundancy: Option<int>)

  /** An optional int argument that Python treats as true. */
  predicate GivenInt(o: Option<int>) { o.Some? && o.value != 0 }

  /** The master-node count the edit sets, if any: an explicit count wins,
      else the length of a given node list. */
  function MasterCount(a: VolumeArgs, list: seq<string>): Option<int> {
    if GivenInt(a.numMasterNodes) then a.numMasterNodes
    else if Given(a.nodes) then Some(|list|)
    else None
  }

  function IntOf(o: Option<int>): int {
    if o.Some? then o.value else 0
  }

  /** The node list of `--nodes`. */
  function NodeList(a: VolumeArgs): seq<string> {
    if a.nodes.Some? then CommaList(a.nodes.value) else []
  }

  /** The owner ids of `--owner`, when they parse. */
  function OwnerOf(a: VolumeArgs): seq<int> {
    if a.owner.Some? && OwnerIds(a.owner.value).Some? then OwnerIds(a.owner.value).value else []
  }

  /** The owner of `--owner` does not parse: `int` raises ValueError. */
  predicate BadOwner(a: VolumeArgs) {
    Given(a.owner) && OwnerIds(a.owner.value).None?
  }

  /** The options `modify_volume` sets, the owner being `ids` and the node
      list `list`. */
  function VolumeAssigned(a: VolumeArgs, ids: seq<int>, list: seq<string>): map<string, Value> {
    Opt(Given(a.owner), "owner", Numbers(ids)) + Entry("size", a.size) + Entry("disk", a.disk) +
    Opt(Given(a.nodes), "nodes", Texts(list)) +
    Opt(MasterCount(a, list).Some?, "num_master_nodes", Number(IntOf(MasterCount(a, list)))) +
    Entry("labels", a.labels) +
    Opt(GivenInt(a.redundancy), "redundancy", Number(IntOf(a.redundancy)))
  }

  /** The volume section after the edit: overridden by the options set. */
  function VolumeEdit(f: map<string, Value>, a: VolumeArgs, ids: seq<int>, list: seq<string>): map<string, Value> {
    f + VolumeAssigned(a, ids, list)
  }

  /** The steps of `modify_volume` in their order. */
  function VolumeSteps(f: map<string, Value>, a: VolumeArgs, ids: seq<int>, list: seq<string>): map<string, Value> {
    var m1 := Put(f, Given(a.owner), "owner", Numbers(ids));
    var m2 := Put(m1, Given(a.size), "size", TextOf(a.size));
    var m3 := Put(m2, Given(a.disk), "disk", TextOf(a.disk));
    var m4 := Put(m3, Given(a.nodes), "nodes", Texts(list));
    var m5 := MasterSteps(m4, a, list);
    var m6 := Put(m5, Given(a.labels), "labels", TextOf(a.labels));
    Put(m6, GivenInt(a.redundancy), "redundancy", Number(IntOf(a.redundancy)))
  }

  /** The count set from the node list, then overridden by an explicit one. */
  function MasterSteps(m: map<string, Value>, a: VolumeArgs, list: seq<string>): map<string, Value> {
    var m1 := Put(m, Given(a.nodes), "num_master_nodes", Number(|list|));
    Put(m1, GivenInt(a.numMasterNodes), "num_master_nodes", Number(IntOf(a.numMasterNodes)))
  }

  lemma MasterStepsOnce(m: map<string, Value>, a: VolumeArgs, list: seq<string>)
    ensures MasterSteps(m, a, list) ==
            Put(m, MasterCount(a, list).Some?, "num_master_nodes", Number(IntOf(MasterCount(a, list))))
  {
  }

  /** The steps amount to overriding the section with the options set. */
  lemma VolumeStepsAreEdit(f: map<string, Value>, a: VolumeArgs, ids: seq<int>, list: seq<string>)
    ensures VolumeSteps(f, a, ids, list) == VolumeEdit(f, a, ids, list)
  {
    var o1 := Opt(Given(a.owner), "owner", Numbers(ids));
    var o2 := Entry("size", a.size);
    var o3 := Entry("disk", a.disk);
    var o4 := Opt(Given(a.nodes), "nodes", Texts(list));
    var o5 := Opt(MasterCount(a, list).Some?, "num_master_nodes", Number(IntOf(MasterCount(a, list))));
    var o6 := Entry("labels", a.labels);
    var o7 := Opt(GivenInt(a.redundancy), "redundancy", Number(IntOf(a.redundancy)));
    var m1 := Put(f, Given(a.owner), "owner", Numbers(ids));
    var m2 := Put(m1, Given(a.size), "size", TextOf(a.size));
    var m3 := Put(m2, Given(a.disk), "disk", TextOf(a.disk));
    var m4 := Put(m3, Given(a.nodes), "nodes", Texts(list));
    var m5 := MasterSteps(m4, a, list);
    var m6 := Put(m5, Given(a.labels), "labels", TextOf(a.labels));
    UnionOpt(f, Given(a.owner), "owner", Numbers(ids));
    UnionOpt(m1, Given(a.size), "size", TextOf(a.size));
    UnionAssoc(f, o1, o2);
    UnionOpt(m2, Given(a.disk), "disk", TextOf(a.disk));
    UnionAssoc(f, o1 + o2, o3);
    UnionOpt(m3, Given(a.nodes), "nodes", Texts(list));
    UnionAssoc(f, o1 + o2 + o3, o4);
    MasterStepsOnce(m4, a, list);
    UnionOpt(m4, MasterCount(a, list).Some?, "num_master_nodes", Number(IntOf(MasterCount(a, list))));
    UnionAssoc(f, o1 + o2 + o3 + o4, o5);
    UnionOpt(m5, Given(a.labels), "labels", TextOf(a.labels));
    UnionAssoc(f, o1 + o2 + o3 + o4 + o5, o6);
    UnionOpt(m6, GivenInt(a.redundancy), "redundancy", Number(IntOf(a.redundancy)));
    UnionAssoc(f, o1 + o2 + o3 + o4 + o5 + o6, o7);
  }

  /** The master-node count follows the node list unless a non-zero count
      is given, which always wins; with neither it is unchanged. */
  lemma VolumeMasterNodes(f: map<string, Value>, a: VolumeArgs, ids: seq<int>, list: seq<string>)
    ensures var e := VolumeEdit(f, a, ids, list);
            && Edited(e, f, Given(a.nodes), "nodes", Texts(list))
            && (GivenInt(a.numMasterNodes) ==> e["num_master_nodes"] == Number(a.numMasterNodes.value))
            && (!GivenInt(a.numMasterNodes) && Given(a.nodes) ==> e["num_master_nodes"] == Number(|list|))
            && (!GivenInt(a.numMasterNodes) && !Given(a.nodes) ==> SameField(e, f, "num_master_nodes"))
  {
    var v5 := Number(IntOf(MasterCount(a, list)));
    var m1 := Put(f, Given(a.owner), "owner", Numbers(ids));
    var m2 := Put(m1, Given(a.size), "size", TextOf(a.size));
    var m3 := Put(m2, Given(a.disk), "disk", TextOf(a.disk));
    var m4 := Put(m3, Given(a.nodes), "nodes", Texts(list));
    var m5 := MasterSteps(m4, a, list);
    var m6 := Put(m5, Given(a.labels), "labels", TextOf(a.labels));
    var m7 := Put(m6, GivenInt(a.redundancy), "redundancy", Number(IntOf(a.redundancy)));
    VolumeStepsAreEdit(f, a, ids, list);
    MasterStepsOnce(m4, a, list);
    PutOther(f, Given(a.owner), "owner", Numbers(ids), "nodes");
    PutOther(m1, Given(a.size), "size", TextOf(a.size), "nodes");
    PutOther(m2, Given(a.disk), "disk", TextOf(a.disk), "nodes");
    PutEdited(m3, Given(a.nodes), "nodes", Texts(list));
    PutOther(m4, MasterCount(a, list).Some?, "num_master_nodes", v5, "nodes");
    PutOther(m5, Given(a.labels), "labels", TextOf(a.labels), "nodes");
    PutOther(m6, GivenInt(a.redundancy), "redundancy", Number(IntOf(a.redundancy)), "nodes");
    PutOther(f, Given(a.owner), "owner", Numbers(ids), "num_master_nodes");
    PutOther(m1, Given(a.size), "size", TextOf(a.size), "num_master_nodes");
    PutOther(m2, Given(a.disk), "disk", TextOf(a.disk), "num_master_nodes");
    PutOther(m3, Given(a.nodes), "nodes", Texts(list), "num_master_nodes");
    PutEdited(m4, MasterCount(a, list).Some?, "num_master_nodes", v5);
    PutOther(m5, Given(a.labels), "labels", TextOf(a.labels), "num_master_nodes");
    PutOther(m6, GivenInt(a.redundancy), "redundancy", Number(IntOf(a.redundancy)), "num_master_nodes");
  }

  /** A given owner is stored as its ids, however many there are; size and
      disk are stored as given, and untouched when not given. */
  lemma VolumeFields(f: map<string, Value>, a: VolumeArgs, ids: seq<int>, list: seq<string>)
    ensures var e := VolumeEdit(f, a, ids, list);
            && Edited(e, f, Given(a.owner), "owner", Numbers(ids))
            && Edited(e, f, Given(a.size), "size", TextOf(a.size))
            && Edited(e, f, Given(a.disk), "disk", TextOf(a.disk))
  {
    var v5 := Number(IntOf(MasterCount(a, list)));
    var m1 := Put(f, Given(a.owner), "owner", Numbers(ids));
    var m2 := Put(m1, Given(a.size), "size", TextOf(a.size));
    var m3 := Put(m2, Given(a.disk), "disk", TextOf(a.disk));
    var m4 := Put(m3, Given(a.nodes), "nodes", Texts(list));
    var m5 := MasterSteps(m4, a, list);
    var m6 := Put(m5, Given(a.labels), "labels", TextOf(a.labels));
    VolumeStepsAreEdit(f, a, ids, list);
    MasterStepsOnce(m4, a, list);
    VolumeTail(m3, a, list, "owner");
    VolumeTail(m3, a, list, "size");
    VolumeTail(m3, a, list, "disk");
    PutEdited(f, Given(a.owner), "owner", Numbers(ids));
    PutOther(m1, Given(a.size), "size", TextOf(a.size), "owner");
    PutOther(m2, Given(a.disk), "disk", TextOf(a.disk), "owner");
    PutOther(f, Given(a.owner), "owner", Numbers(ids), "size");
    PutEdited(m1, Given(a.size), "size", TextOf(a.size));
    PutOther(m2, Given(a.disk), "disk", TextOf(a.disk), "size");
    PutOther(f, Given(a.owner), "owner", Numbers(ids), "disk");
    PutOther(m1, Given(a.size), "size", TextOf(a.size), "disk");
    PutEdited(m2, Given(a.disk), "disk", TextOf(a.disk));
  }

  /** The steps after the disk leave every key but their own alone. */
  lemma VolumeTail(m3: map<string, Value>, a: VolumeArgs, list: seq<string>, k: string)
    requires k != "nodes" && k != "num_master_nodes" && k != "labels" && k != "redundancy"
    ensures var m4 := Put(m3, Given(a.nodes), "nodes", Texts(list));
            var m6 := Put(MasterSteps(m4, a, list), Given(a.labels), "labels", TextOf(a.labels));
            SameField(Put(m6, GivenInt(a.redundancy), "redundancy", Number(IntOf(a.redundancy))), m3, k)
  {
    var m4 := Put(m3, Given(a.nodes), "nodes", Texts(list));
    var m5 := MasterSteps(m4, a, list);
    var m6 := Put(m5, Given(a.labels), "labels", TextOf(a.labels));
    MasterStepsOnce(m4, a, list);
    PutOther(m3, Given(a.nodes), "nodes", Texts(list), k);
    PutOther(m4, MasterCount(a, list).Some?, "num_master_nodes", Number(IntOf(MasterCount(a, list))), k);
    PutOther(m5, Given(a.labels), "labels", TextOf(a.labels), k);
    PutOther(m6, GivenInt(a.redundancy), "redundancy", Number(IntOf(a.redundancy)), k);
  }

  /** Labels and redundancy are stored as given, and untouched when not
      given (a redundancy of 0 counts as not given); every other key is
      untouched. */
  lemma VolumeOtherFields(f: map<string, Value>, a: VolumeArgs, ids: seq<int>, list: seq<string>, k: string)
    ensures var e := VolumeEdit(f, a, ids, list);
            && Edited(e, f, Given(a.labels), "labels", TextOf(a.labels))
            && Edited(e, f, GivenInt(a.redundancy), "redundancy", Number(IntOf(a.redundancy)))
            && ((k != "owner" && k != "size" && k != "disk" && k != "nodes" && k != "num_master_nodes" &&
                 k != "labels" && k != "redundancy") ==> SameField(e, f, k))
  {
    var m1 := Put(f, Given(a.owner), "owner", Numbers(ids));
    var m2 := Put(m1, Given(a.size), "size", TextOf(a.size));
    var m3 := Put(m2, Given(a.disk), "disk", TextOf(a.disk));
    var m4 := Put(m3, Given(a.nodes), "nodes", Texts(list));
    var m5 := MasterSteps(m4, a, list);
    var m6 := Put(m5, Given(a.labels), "labels", TextOf(a.labels));
    VolumeStepsAreEdit(f, a, ids, list);
    PutEdited(m5, Given(a.labels), "labels", TextOf(a.labels));
    PutOther(m6, GivenInt(a.redundancy), "redundancy", Number(IntOf(a.redundancy)), "labels");
    PutEdited(m6, GivenInt(a.redundancy), "redundancy", Number(IntOf(a.redundancy)));
    VolumeHeadLabels(f, a, ids, list);
    if k != "owner" && k != "size" && k != "disk" && k != "nodes" && k != "num_master_nodes" &&
       k != "labels" && k != "redundancy" {
      PutOther(f, Given(a.owner), "owner", Numbers(ids), k);
      PutOther(m1, Given(a.size), "size", TextOf(a.size), k);
      PutOther(m2, Given(a.disk), "disk", TextOf(a.disk), k);
      VolumeTail(m3, a, list, k);
    }
  }

  /** The steps before the labels leave the labels and redundancy alone. */
  lemma VolumeHeadLabels(f: map<string, Value>, a: VolumeArgs, ids: seq<int>, list: seq<string>)
    ensures var m1 := Put(f, Given(a.owner), "owner", Numbers(ids));
            var m2 := Put(m1, Given(a.size), "size", TextOf(a.size));
            var m3 := Put(m2, Given(a.disk), "disk", TextOf(a.disk));
            var m4 := Put(m3, Given(a.nodes), "nodes", Texts(list));
            var m5 := MasterSteps(m4, a, list);
            SameField(m5, f, "labels") && SameField(Put(m5, Given(a.labels), "labels", TextOf(a.labels)), f, "redundancy")
  {
    var m1 := Put(f, Given(a.owner), "owner", Numbers(ids));
    var m2 := Put(m1, Given(a.size), "size", TextOf(a.size));
    var m3 := Put(m2, Given(a.disk), "disk", TextOf(a.disk));
    var m4 := Put(m3, Given(a.nodes), "nodes", Texts(list));
    var m5 := MasterSteps(m4, a, list);
    MasterStepsOnce(m4, a, list);
    var v5 := Number(IntOf(MasterCount(a, list)));
    PutOther(f, Given(a.owner), "owner", Numbers(ids), "labels");
    PutOther(m1, Given(a.size), "size", TextOf(a.size), "labels");
    PutOther(m2, Given(a.disk), "disk", TextOf(a.disk), "labels");
    PutOther(m3, Given(a.nodes), "nodes", Texts(list), "labels");
    PutOther(m4, MasterCount(a, list).Some?, "num_master_nodes", v5, "labels");
    PutOther(f, Given(a.owner), "owner", Numbers(ids), "redundancy");
    PutOther(m1, Given(a.size), "size", TextOf(a.size), "redundancy");
    PutOther(m2, Given(a.disk), "disk", TextOf(a.disk), "redundancy");
    PutOther(m3, Given(a.nodes), "nodes", Texts(list), "redundancy");
    PutOther(m4, MasterCount(a, list).Some?, "num_master_nodes", v5, "redundancy");
    PutOther(m5, Given(a.labels), "labels", TextOf(a.labels), "redundancy");
  }

  /** `modify_volume`: a missing volume is refused, an absent `_all`
      raises KeyError, an owner that does not parse raises ValueError before
      anything changes; otherwise the volume's section is edited. */
  method ModifyVolume(volumes: map<string, ConfRecord>, name: string, a: VolumeArgs) returns (o: Outcome)
    modifies volumes.Values
    ensures name !in volumes ==> o == (if name == "_all" then Raised(KeyErrorAll) else Returned(Some(1)))
    ensures name in volumes ==> o == (if BadOwner(a) then Raised("ValueError") else Returned(None))
    ensures o == Returned(None) ==>
              name in volumes && volumes[name].fields == VolumeEdit(old(volumes[name].fields), a, OwnerOf(a), NodeList(a))
    ensures forall r :: r in volumes.Values && (o != Returned(None) || r != volumes[name]) ==> r.fields == old(r.fields)
  {
    if name != "_all" && name !in volumes {
      return Returned(Some(1));
    }
    if name !in volumes {
      return Raised(KeyErrorAll);
    }
    var conf := volumes[name];
    var ids: seq<int> := [];
    if Given(a.owner) {
      var owner := OwnerIds(a.owner.value);
      if owner.None? {
        return Raised("ValueError");
      }
      ids := owner.value;
    }
    assert ids == OwnerOf(a);
    var fields := VolumeOptions(conf.fields, a, ids);
    VolumeStepsAreEdit(conf.fields, a, ids, NodeList(a));
    conf.fields := fields;
    return Returned(None);
  }

  /** The assignments of `modify_volume` once the owner parsed as `ids`,
      one after the other on the section's dictionary. */
  method VolumeOptions(f: map<string, Value>, a: VolumeArgs, ids: seq<int>) returns (fields: map<string, Value>)
    ensures fields == VolumeSteps(f, a, ids, NodeList(a))
  {
    fields := f;
    ghost var list := NodeList(a);
    if Given(a.owner) {
      fields := fields["owner" := Numbers(ids)];
    }
    ghost var m := Put(f, Given(a.owner), "owner", Numbers(ids));
    assert fields == m;
    if Given(a.size) {
      fields := fields["size" := Text(a.size.value)];
    }
    m := Put(m, Given(a.size), "size", TextOf(a.size));
    assert fields == m;
    if Given(a.disk) {
      fields := fields["disk" := Text(a.disk.value)];
    }
    m := Put(m, Given(a.disk), "disk", TextOf(a.disk));
    assert fields == m;
    ghost var m4 := Put(m, Given(a.nodes), "nodes", Texts(list));
    if Given(a.nodes) {
      var nodeList := CommaList(a.nodes.value);
      fields := fields["nodes" := Texts(nodeList)];
      assert fields == m4;
      fields := fields["num_master_nodes" := Number(|nodeList|)];
    }
    m := Put(m4, Given(a.nodes), "num_master_nodes", Number(|list|));
    assert fields == m;
    if GivenInt(a.numMasterNodes) {
      fields := fields["num_master_nodes" := Number(a.numMasterNodes.value)];
    }
    m := MasterSteps(m4, a, list);
    assert fields == m;
    if Given(a.labels) {
      fields := fields["labels" := Text(a.labels.value)];
    }
    m := Put(m, Given(a.labels), "labels", TextOf(a.labels));
    assert fields == m;
    if GivenInt(a.redundancy) {
      fields := fields["redundancy" := Number(a.redundancy.value)];
    }
  }

  // ----- modify-backup-schedule -----

  /** The options after argument parsing: every cron field defaults to `*`. */
  datatype BackupArgs = BackupArgs(minute: string, hour: string, day: string, month: string,
                                   weekday: string, disabled: bool)

  function Cron(k: string, v: string): map<string, Value> {
    Opt(v != "", k, Text(v))
  }

  /** The options `modify_backup_schedule` sets. */
  function BackupAssigned(a: BackupArgs): map<string, Value> {
    Cron("minute", a.minute) + Cron("hour", a.hour) + Cron("day", a.day) +
    Cron("month", a.month) + Cron("weekday", a.weekday) +
    Opt(a.disabled, "enabled", Flag(false))
  }

  /** The schedule section after the edit: overridden by the options set. */
  function BackupEdit(f: map<string, Value>, a: BackupArgs): map<string, Value> {
    f + BackupAssigned(a)
  }

  /** The steps of `modify_backup_schedule` in their order. */
  function BackupSteps(f: map<string, Value>, a: BackupArgs): map<string, Value> {
    var m1 := Put(f, a.minute != "", "minute", Text(a.minute));
    var m2 := Put(m1, a.hour != "", "hour", Text(a.hour));
    var m3 := Put(m2, a.day != "", "day", Text(a.day));
    var m4 := Put(m3, a.month != "", "month", Text(a.month));
    var m5 := Put(m4, a.weekday != "", "weekday", Text(a.weekday));
    Put(m5, a.disabled, "enabled", Flag(!a.disabled))
  }

  lemma BackupStepsAreEdit(f: map<string, Value>, a: BackupArgs)
    ensures BackupSteps(f, a) == BackupEdit(f, a)
  {
    var o1, o2, o3 := Cron("minute", a.minute), Cron("hour", a.hour), Cron("day", a.day);
    var o4, o5 := Cron("month", a.month), Cron("weekday", a.weekday);
    var o6 := Opt(a.disabled, "enabled", Flag(false));
    var m1 := Put(f, a.minute != "", "minute", Text(a.minute));
    var m2 := Put(m1, a.hour != "", "hour", Text(a.hour));
    var m3 := Put(m2, a.day != "", "day", Text(a.day));
    var m4 := Put(m3, a.month != "", "month", Text(a.month));
    var m5 := Put(m4, a.weekday != "", "weekday", Text(a.weekday));
    UnionOpt(f, a.minute != "", "minute", Text(a.minute));
    UnionOpt(m1, a.hour != "", "hour", Text(a.hour));
    UnionAssoc(f, o1, o2);
    UnionOpt(m2, a.day != "", "day", Text(a.day));
    UnionAssoc(f, o1 + o2, o3);
    UnionOpt(m3, a.month != "", "month", Text(a.month));
    UnionAssoc(f, o1 + o2 + o3, o4);
    UnionOpt(m4, a.weekday != "", "weekday", Text(a.weekday));
    UnionAssoc(f, o1 + o2 + o3 + o4, o5);
    UnionOpt(m5, a.disabled, "enabled", Flag(false));
    UnionAssoc(f, o1 + o2 + o3 + o4 + o5, o6);
  }

  /** Minute, hour and day are overwritten exactly when their value is
      non-empty, and are otherwise untouched. */
  lemma BackupEditTimes(f: map<string, Value>, a: BackupArgs)
    ensures var e := BackupEdit(f, a);
            && Edited(e, f, a.minute != "", "minute", Text(a.minute))
            && Edited(e, f, a.hour != "", "hour", Text(a.hour))
            && Edited(e, f, a.day != "", "day", Text(a.day))
  {
    var m1 := Put(f, a.minute != "", "minute", Text(a.minute));
    var m2 := Put(m1, a.hour != "", "hour", Text(a.hour));
    var m3 := Put(m2, a.day != "", "day", Text(a.day));
    var m4 := Put(m3, a.month != "", "month", Text(a.month));
    var m5 := Put(m4, a.weekday != "", "weekday", Text(a.weekday));
    BackupStepsAreEdit(f, a);
    PutEdited(f, a.minute != "", "minute", Text(a.minute));
    PutOther(m1, a.hour != "", "hour", Text(a.hour), "minute");
    PutOther(m2, a.day != "", "day", Text(a.day), "minute");
    PutOther(m3, a.month != "", "month", Text(a.month), "minute");
    PutOther(m4, a.weekday != "", "weekday", Text(a.weekday), "minute");
    PutOther(m5, a.disabled, "enabled", Flag(!a.disabled), "minute");
    PutOther(f, a.minute != "", "minute", Text(a.minute), "hour");
    PutEdited(m1, a.hour != "", "hour", Text(a.hour));
    PutOther(m2, a.day != "", "day", Text(a.day), "hour");
    PutOther(m3, a.month != "", "month", Text(a.month), "hour");
    PutOther(m4, a.weekday != "", "weekday", Text(a.weekday), "hour");
    PutOther(m5, a.disabled, "enabled", Flag(!a.disabled), "hour");
    PutOther(f, a.minute != "", "minute", Text(a.minute), "day");
    PutOther(m1, a.hour != "", "hour", Text(a.hour), "day");
    PutEdited(m2, a.day != "", "day", Text(a.day));
    PutOther(m3, a.month != "", "month", Text(a.month), "day");
    PutOther(m4, a.weekday != "", "weekday", Text(a.weekday), "day");
    PutOther(m5, a.disabled, "enabled", Flag(!a.disabled), "day");
  }

  /** Month and weekday are overwritten exactly when their value is
      non-empty; `enabled` becomes false when `disabled` is set and is
      otherwise untouched. */
  lemma BackupEditDates(f: map<string, Value>, a: BackupArgs)
    ensures var e := BackupEdit(f, a);
            && Edited(e, f, a.month != "", "month", Text(a.month))
            && Edited(e, f, a.weekday != "", "weekday", Text(a.weekday))
            && Edited(e, f, a.disabled, "enabled", Flag(false))
  {
    var m1 := Put(f, a.minute != "", "minute", Text(a.minute));
    var m2 := Put(m1, a.hour != "", "hour", Text(a.hour));
    var m3 := Put(m2, a.day != "", "day", Text(a.day));
    var m4 := Put(m3, a.month != "", "month", Text(a.month));
    var m5 := Put(m4, a.weekday != "", "weekday", Text(a.weekday));
    BackupStepsAreEdit(f, a);
    PutOther(f, a.minute != "", "minute", Text(a.minute), "month");
    PutOther(m1, a.hour != "", "hour", Text(a.hour), "month");
    PutOther(m2, a.day != "", "day", Text(a.day), "month");
    PutEdited(m3, a.month != "", "month", Text(a.month));
    PutOther(m4, a.weekday != "", "weekday", Text(a.weekday), "month");
    PutOther(m5, a.disabled, "enabled", Flag(!a.disabled), "month");
    PutOther(f, a.minute != "", "minute", Text(a.minute), "weekday");
    PutOther(m1, a.hour != "", "hour", Text(a.hour), "weekday");
    PutOther(m2, a.day != "", "day", Text(a.day), "weekday");
    PutOther(m3, a.month != "", "month", Text(a.month), "weekday");
    PutEdited(m4, a.weekday != "", "weekday", Text(a.weekday));
    PutOther(m5, a.disabled, "enabled", Flag(!a.disabled), "weekday");
    PutOther(f, a.minute != "", "minute", Text(a.minute), "enabled");
    PutOther(m1, a.hour != "", "hour", Text(a.hour), "enabled");
    PutOther(m2, a.day != "", "day", Text(a.day), "enabled");
    PutOther(m3, a.month != "", "month", Text(a.month), "enabled");
    PutOther(m4, a.weekday != "", "weekday", Text(a.weekday), "enabled");
    PutEdited(m5, a.disabled, "enabled", Flag(!a.disabled));
  }

  /** Every key that is not a schedule option is untouched. */
  lemma BackupEditOthers(f: map<string, Value>, a: BackupArgs, k: string)
    requires k != "minute" && k != "hour" && k != "day" && k != "month" && k != "weekday" && k != "enabled"
    ensures SameField(BackupEdit(f, a), f, k)
  {
    var m1 := Put(f, a.minute != "", "minute", Text(a.minute));
    var m2 := Put(m1, a.hour != "", "hour", Text(a.hour));
    var m3 := Put(m2, a.day != "", "day", Text(a.day));
    var m4 := Put(m3, a.month != "", "month", Text(a.month));
    var m5 := Put(m4, a.weekday != "", "weekday", Text(a.weekday));
    BackupStepsAreEdit(f, a);
    PutOther(f, a.minute != "", "minute", Text(a.minute), k);
    PutOther(m1, a.hour != "", "hour", Text(a.hour), k);
    PutOther(m2, a.day != "", "day", Text(a.day), k);
    PutOther(m3, a.month != "", "month", Text(a.month), k);
    PutOther(m4, a.weekday != "", "weekday", Text(a.weekday), k);
    PutOther(m5, a.disabled, "enabled", Flag(!a.disabled), k);
  }

  function CliBackupArgs(minute: Option<string>, hour: Option<string>, day: Option<string>,
                         month: Option<string>, weekday: Option<string>, disabled: bool): BackupArgs
  {
    BackupArgs(OrStar(minute), OrStar(hour), OrStar(day), OrStar(month), OrStar(weekday), disabled)
  }

  function OrStar(o: Option<string>): string {
    if o.Some? then o.value else "*"
  }

  /** So a cron field the user leaves out is reset to `*`, whatever it
      held. */
  lemma BackupCliResets(f: map<string, Value>, minute: Option<string>, hour: Option<string>, day: Option<string>,
                        month: Option<string>, weekday: Option<string>, disabled: bool)
    ensures var a := CliBackupArgs(minute, hour, day, month, weekday, disabled);
            && (minute.None? ==> BackupEdit(f, a)["minute"] == Text("*"))
            && (hour.None? ==> BackupEdit(f, a)["hour"] == Text("*"))
            && (day.None? ==> BackupEdit(f, a)["day"] == Text("*"))
            && (month.None? ==> BackupEdit(f, a)["month"] == Text("*"))
            && (weekday.None? ==> BackupEdit(f, a)["weekday"] == Text("*"))
  {
    BackupEditTimes(f, CliBackupArgs(minute, hour, day, month, weekday, disabled));
    BackupEditDates(f, CliBackupArgs(minute, hour, day, month, weekday, disabled));
  }

  /** A database section: its `backups` subsection, if it has one. */
  datatype Database = Database(backups: Option<map<string, ConfRecord>>)

  function BackupsOf(databases: map<string, Database>, dbName: string): set<ConfRecord> {
    if dbName in databases && databases[dbName].backups.Some? then databases[dbName].backups.value.Values else {}
  }

  /** `modify_backup_schedule`: a missing database, a database without
      backups and a missing schedule are refused; an absent `_all` raises
      KeyError; otherwise the schedule's section is edited. */
  method ModifyBackupSchedule(databases: map<string, Database>, dbName: string, backupName: string, a: BackupArgs)
    returns (o: Outcome)
    modifies BackupsOf(databases, dbName)
    ensures dbName !in databases ==> o == Returned(Some(1))
    ensures dbName in databases && databases[dbName].backups.None? ==> o == Returned(Some(1))
    ensures dbName in databases && databases[dbName].backups.Some? && backupName !in databases[dbName].backups.value ==>
              o == (if backupName == "_all" then Raised(KeyErrorAll) else Returned(Some(1)))
    ensures o == Returned(None) <==>
              dbName in databases && databases[dbName].backups.Some? && backupName in databases[dbName].backups.value
    ensures o == Returned(None) ==>
              var r := databases[dbName].backups.value[backupName];
              r.fields == BackupEdit(old(r.fields), a)
    ensures forall r :: r in BackupsOf(databases, dbName) &&
                        (o != Returned(None) || r != databases[dbName].backups.value[backupName]) ==>
                          r.fields == old(r.fields)
  {
    if dbName !in databases {
      return Returned(Some(1));
    }
    var db := databases[dbName];
    if db.backups.None? || (backupName != "_all" && backupName !in db.backups.value) {
      return Returned(Some(1));
    }
    if backupName !in db.backups.value {
      return Raised(KeyErrorAll);
    }
    var ba := db.backups.value[backupName];
    var fields := ba.fields;
    ghost var m := fields;
    if a.minute != "" {
      fields := fields["minute" := Text(a.minute)];
    }
    m := Put(m, a.minute != "", "minute", Text(a.minute));
    assert fields == m;
    if a.hour != "" {
      fields := fields["hour" := Text(a.hour)];
    }
    m := Put(m, a.hour != "", "hour", Text(a.hour));
    assert fields == m;
    if a.day != "" {
      fields := fields["day" := Text(a.day)];
    }
    m := Put(m, a.day != "", "day", Text(a.day));
    assert fields == m;
    if a.month != "" {
      fields := fields["month" := Text(a.month)];
    }
    m := Put(m, a.month != "", "month", Text(a.month));
    assert fields == m;
    if a.weekday != "" {
      fields := fields["weekday" := Text(a.weekday)];
    }
    m := Put(m, a.weekday != "", "weekday", Text(a.weekday));
    assert fields == m;
    if a.disabled {
      fields := fields["enabled" := Flag(!a.disabled)];
    }
    m := Put(m, a.disabled, "enabled", Flag(!a.disabled));
    assert fields == m;
    assert m == BackupSteps(ba.fields, a);
    BackupStepsAreEdit(ba.fields, a);
    ba.fields := fields;
    return Returned(None);
  }
}
