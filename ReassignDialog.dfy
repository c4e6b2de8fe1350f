/** The booking reassignment dialog: which team hosts a booking may be handed to, the
    dialog's choice between round-robin and a chosen member, and its confirm action. */
module ReassignDialog {
  import opened Wrappers
  import opened JsValues
  import Seqs

  datatype User = User(id: int, name: Option<string>, email: string)

  /** A host of the event type; a fixed host attends every booking. */
  datatype Host = Host(isFixed: bool, user: User)

  /** An entry of the member picker. */
  datatype HostOption = HostOption(labelText: string, value: int)

  // ---------------------------------------------------------------------------
  // hostsToReassign and hostsToReassignOptions
  // ---------------------------------------------------------------------------

  /** `assignedHosts?.find((assignedHost) => assignedHost === host.user.email && !host.isFixed)` */
  function MatchingAssignment(assignedHosts: Option<seq<string>>, host: Host): (found: Option<string>)
    ensures found.Some? ==> found.value == host.user.email && !host.isFixed
    ensures found.None? <==> assignedHosts.None? || host.isFixed || host.user.email !in assignedHosts.value
  {
    if assignedHosts.None? then None
    else Seqs.Find(assignedHosts.value, (assignedHost: string) => assignedHost == host.user.email && !host.isFixed)
  }

  /** The filter's callback as written: `!found`. A found email is a string, so a found `""` is falsy. */
  predicate KeptAsWritten(assignedHosts: Option<seq<string>>, host: Host)
  {
    var found := MatchingAssignment(assignedHosts, host);
    !(found.Some? && Truthy(Str(found.value)))
  }

  /** `hosts?.filter(...)` exactly as written. */
  function HostsToReassignAsWritten(hosts: Option<seq<Host>>, assignedHosts: Option<seq<string>>): (kept: Option<seq<Host>>)
    ensures kept.Some? <==> hosts.Some?
    ensures kept.Some? ==> |kept.value| <= |hosts.value|
    ensures kept.Some? ==> forall i :: 0 <= i < |kept.value| ==> KeptAsWritten(assignedHosts, kept.value[i])
  {
    if hosts.None? then None else Some(Seqs.Filter(hosts.value, (host: Host) => KeptAsWritten(assignedHosts, host)))
  }

  /** As written, a non-fixed host whose email is "" is kept although "" is among the assigned hosts,
      and the picker offers it; the intended rule drops it. */
  lemma AsWrittenKeepsAssignedEmptyEmail()
    ensures var host := Host(false, User(1, None, ""));
            HostsToReassignAsWritten(Some([host]), Some([""])) == Some([host]) &&
            HostsToReassignOptions(Some([host]), Some([""])) == [HostOption("", 1)] &&
            HostsToReassign(Some([host]), Some([""])) == Some([])
  {
    var host := Host(false, User(1, None, ""));
    assert MatchingAssignment(Some([""]), host) == Some("");
    assert KeptAsWritten(Some([""]), host);
    assert Seqs.Filter([host], (h: Host) => KeptAsWritten(Some([""]), h)) == [host];
    assert Seqs.Filter([host], (h: Host) => Kept(Some([""]), h)) == [];
  }

  /** The intended rule: a host stays unless it is not fixed and its email is assigned already. */
  predicate Kept(assignedHosts: Option<seq<string>>, host: Host)
  {
    MatchingAssignment(assignedHosts, host).None?
  }

  /** The hosts a booking may be reassigned to. */
  function HostsToReassign(hosts: Option<seq<Host>>, assignedHosts: Option<seq<string>>): Option<seq<Host>>
  {
    if hosts.None? then None else Some(Seqs.Filter(hosts.value, (host: Host) => Kept(assignedHosts, host)))
  }

  /** The two rules differ only on hosts whose email is empty. */
  lemma AsWrittenAgreesWithoutEmptyEmails(hosts: Option<seq<Host>>, assignedHosts: Option<seq<string>>)
    requires hosts.Some? ==> forall i :: 0 <= i < |hosts.value| ==> hosts.value[i].user.email != ""
    ensures HostsToReassignAsWritten(hosts, assignedHosts) == HostsToReassign(hosts, assignedHosts)
  {
    if hosts.Some? {
      Seqs.FilterAgree(hosts.value, (host: Host) => KeptAsWritten(assignedHosts, host), (host: Host) => Kept(assignedHosts, host));
    }
  }

  /** The reassignable hosts keep the order of `hosts`; undefined hosts stay undefined. */
  lemma HostsToReassignIsSubsequence(hosts: Option<seq<Host>>, assignedHosts: Option<seq<string>>)
    ensures HostsToReassignAsWritten(hosts, assignedHosts).Some? <==> hosts.Some?
    ensures hosts.Some? ==> Seqs.IsSubsequence(HostsToReassignAsWritten(hosts, assignedHosts).value, hosts.value)
    ensures HostsToReassign(hosts, assignedHosts).Some? <==> hosts.Some?
    ensures hosts.Some? ==> Seqs.IsSubsequence(HostsToReassign(hosts, assignedHosts).value, hosts.value)
  {
    if hosts.Some? {
      Seqs.FilterIsSubsequence(hosts.value, (host: Host) => KeptAsWritten(assignedHosts, host));
      Seqs.FilterIsSubsequence(hosts.value, (host: Host) => Kept(assignedHosts, host));
    }
  }

  /** As written, a fixed host is always kept, and a non-fixed one is dropped exactly when its email
      is assigned and is not "". */
  lemma AsWrittenMembership(hosts: seq<Host>, assignedHosts: Option<seq<string>>, host: Host)
    requires host in hosts
    ensures host.isFixed ==> host in HostsToReassignAsWritten(Some(hosts), assignedHosts).value
    ensures !host.isFixed ==> (host !in HostsToReassignAsWritten(Some(hosts), assignedHosts).value <==>
                               assignedHosts.Some? && host.user.email in assignedHosts.value && host.user.email != "")
  {
    Seqs.FilterMembership(hosts, (h: Host) => KeptAsWritten(assignedHosts, h), host);
  }

  /** A fixed host is always kept; a non-fixed one is dropped exactly when its email is assigned. */
  lemma HostsToReassignMembership(hosts: seq<Host>, assignedHosts: Option<seq<string>>, host: Host)
    requires host in hosts
    ensures host.isFixed ==> host in HostsToReassign(Some(hosts), assignedHosts).value
    ensures !host.isFixed ==> (host in HostsToReassign(Some(hosts), assignedHosts).value <==>
                               assignedHosts.None? || host.user.email !in assignedHosts.value)
  {
    Seqs.FilterMembership(hosts, (h: Host) => Kept(assignedHosts, h), host);
  }

  /** `{ label: host.user.name || "", value: host.user.id }` */
  function HostOptionOf(host: Host): (option: HostOption)
    ensures option.value == host.user.id
    ensures host.user.name.Some? ==> option.labelText == host.user.name.value
    ensures host.user.name.None? ==> option.labelText == ""
  {
    HostOption(GetOr(host.user.name, ""), host.user.id)
  }

  /** `hostsToReassign?.map(...) || []`, over the hosts the filter keeps as written. */
  function HostsToReassignOptions(hosts: Option<seq<Host>>, assignedHosts: Option<seq<string>>): (options: seq<HostOption>)
    ensures hosts.None? ==> options == []
    ensures hosts.Some? ==> |options| == |HostsToReassignAsWritten(hosts, assignedHosts).value|
    ensures hosts.Some? ==> forall i :: 0 <= i < |options| ==>
              options[i] == HostOptionOf(HostsToReassignAsWritten(hosts, assignedHosts).value[i])
  {
    match HostsToReassignAsWritten(hosts, assignedHosts)
    case None => []
    case Some(kept) => Seqs.MapSeq(kept, HostOptionOf)
  }

  /** The options as the JavaScript array the component tests with `!`. */
  function OptionsValue(options: seq<HostOption>): JsValue
  {
    Arr(Seqs.MapSeq(options, (o: HostOption) => Obj(map["label" := Str(o.labelText), "value" := Num(o.value)])))
  }

  /** What the member step shows. */
  datatype MemberStepView = NoAvailableHosts | HostPicker(options: seq<HostOption>, selected: Option<HostOption>)

  /** `MemberReassignStep`: the picker, showing the option whose value is the selected host. */
  function MemberReassignStep(hosts: Option<seq<Host>>, assignedHosts: Option<seq<string>>, selectedHost: int): (view: MemberStepView)
    ensures view.HostPicker? ==> (view.selected.None? <==>
              forall i :: 0 <= i < |view.options| ==> view.options[i].value != selectedHost)
    ensures view.HostPicker? && view.selected.Some? ==>
              view.selected.value in view.options && view.selected.value.value == selectedHost
  {
    var options := HostsToReassignOptions(hosts, assignedHosts);
    if !Truthy(OptionsValue(options)) then NoAvailableHosts
    else HostPicker(options, Seqs.Find(options, (o: HostOption) => o.value == selectedHost))
  }

  /** The options list is an array, and every array is truthy: "no available hosts" is never shown, even with no option. */
  lemma NoAvailableHostsIsUnreachable(hosts: Option<seq<Host>>, assignedHosts: Option<seq<string>>, selectedHost: int)
    ensures MemberReassignStep(hosts, assignedHosts, selectedHost).HostPicker?
    ensures MemberReassignStep(hosts, assignedHosts, selectedHost).options == HostsToReassignOptions(hosts, assignedHosts)
  {
  }

  // ---------------------------------------------------------------------------
  // The dialog
  // ---------------------------------------------------------------------------

  datatype ReassignTarget = RoundRobinTarget | ChooseMemberTarget

  /** The arguments of a `roundRobinReassign` request. */
  datatype ReassignRequest = ReassignRequest(teamId: int, eventTypeId: int, bookingId: int)

  /** The dialog's state: the open flag its parent owns, the two state cells, and the requests issued so far. */
  class Dialog {
    var isOpen: bool
    var target: ReassignTarget
    var selectedHost: int
    var requests: seq<ReassignRequest>
    const hosts: Option<seq<Host>>
    const assignedHosts: seq<string>
    const eventTypeId: int
    const teamId: int
    const bookingId: int

    constructor (isOpenDialog: bool, hosts: Option<seq<Host>>, assignedHosts: seq<string>,
                 eventTypeId: int, teamId: int, bookingId: int)
      ensures target == RoundRobinTarget && selectedHost == 0 && requests == []
      ensures isOpen == isOpenDialog
      ensures this.hosts == hosts && this.assignedHosts == assignedHosts
      ensures this.eventTypeId == eventTypeId && this.teamId == teamId && this.bookingId == bookingId
    {
      this.isOpen := isOpenDialog;
      this.target := RoundRobinTarget;
      this.selectedHost := 0;
      this.requests := [];
      this.hosts := hosts;
      this.assignedHosts := assignedHosts;
      this.eventTypeId := eventTypeId;
      this.teamId := teamId;
      this.bookingId := bookingId;
    }

    /** `onOpenChange(open)` */
    method OpenChange(open: bool)
      modifies this
      ensures isOpen == open
      ensures target == old(target) && selectedHost == old(selectedHost) && requests == old(requests)
    {
      isOpen := open;
    }

    /** A click on one of the two radio items. */
    method ChooseTarget(t: ReassignTarget)
      modifies this
      ensures target == t
      ensures isOpen == old(isOpen) && selectedHost == old(selectedHost) && requests == old(requests)
    {
      target := t;
    }

    /** The member picker's `onChange`: a selection sets the host, a cleared one (null) changes nothing. */
    method SelectHost(val: Option<HostOption>)
      modifies this
      ensures val.Some? ==> selectedHost == val.value.value
      ensures val.None? ==> selectedHost == old(selectedHost)
      ensures isOpen == old(isOpen) && target == old(target) && requests == old(requests)
    {
      if val.Some? {
        selectedHost := val.value.value;
      }
    }

    /** The confirm button: a round-robin reassignment request in the round-robin state, nothing otherwise;
        the dialog stays as open as it was. */
    method Confirm()
      modifies this
      ensures old(target) == RoundRobinTarget ==> requests == old(requests) + [ReassignRequest(teamId, eventTypeId, bookingId)]
      ensures old(target) == ChooseMemberTarget ==> requests == old(requests)
      ensures isOpen == old(isOpen) && target == old(target) && selectedHost == old(selectedHost)
    {
      if target == RoundRobinTarget {
        requests := requests + [ReassignRequest(teamId, eventTypeId, bookingId)];
      }
    }

    /** The member step is rendered only in the choose-member state. */
    function MemberStep(): (view: Option<MemberStepView>)
      reads this
      ensures view.Some? <==> target == ChooseMemberTarget
      ensures view.Some? ==> view.value.HostPicker? && view.value.options == HostsToReassignOptions(hosts, Some(assignedHosts))
    {
      if target == ChooseMemberTarget then Some(MemberReassignStep(hosts, Some(assignedHosts), selectedHost)) else None
    }
  }
}
