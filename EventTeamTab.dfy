/** The team tab of the event-type settings: team members as picker options, the fixed and
    round-robin host lists those pickers edit, and the scheduling-type select. */
module EventTeamTab {
  import opened Wrappers
  import Seqs
  import Decimal

  datatype TeamMember = TeamMember(id: Option<int>, name: Option<string>, username: Option<string>, email: string)

  /** An entry of the host pickers. */
  datatype MemberOption = MemberOption(value: string, labelText: string, avatar: string, email: string)

  /** An entry of the form's `hostsFixed` or `hosts` list. */
  datatype HostAssignment = HostAssignment(isFixed: bool, userId: Decimal.Number)

  // ---------------------------------------------------------------------------
  // mapUserToValue
  // ---------------------------------------------------------------------------

  /** `${id || ""}`: a missing id and the id 0 both give "". */
  function IdText(id: Option<int>): (text: string)
    ensures text == "" <==> id.None? || id.value == 0
    ensures text != "" ==> text == Decimal.IntToString(id.value)
    ensures text != "" ==> Decimal.ParseInt(text) == Decimal.Finite(id.value)
  {
    if id.None? || id.value == 0 then ""
    else
      Decimal.ParseIntRoundTrip(id.value);
      Decimal.IntToString(id.value)
  }

  /** `${x}` for a string that may be null: null is spelt "null". */
  function TemplateText(x: Option<string>): string
  {
    if x.None? then "null" else x.value
  }

  /** `mapUserToValue`; `webappUrl` is the deployment's `WEBAPP_URL`. */
  function MapUserToValue(webappUrl: string, member: TeamMember): (option: MemberOption)
    ensures option.value == IdText(member.id)
    ensures option.value == "" <==> member.id.None? || member.id == Some(0)
    ensures option.value != "" ==> Decimal.ParseInt(option.value) == Decimal.Finite(member.id.value)
    ensures member.name.Some? ==> option.labelText == member.name.value
    ensures member.name.None? ==> option.labelText == ""
    ensures option.email == member.email
    ensures member.username.Some? ==> option.avatar == webappUrl + "/" + member.username.value + "/avatar.png"
    ensures member.username.None? ==> option.avatar == webappUrl + "/null/avatar.png"
  {
    MemberOption(IdText(member.id), GetOr(member.name, ""), webappUrl + "/" + TemplateText(member.username) + "/avatar.png",
                 member.email)
  }

  /** `teamMembers.map(mapUserToValue)` */
  function TeamMemberOptions(webappUrl: string, members: seq<TeamMember>): (options: seq<MemberOption>)
    ensures |options| == |members|
    ensures forall i :: 0 <= i < |members| ==> options[i] == MapUserToValue(webappUrl, members[i])
  {
    Seqs.MapSeq(members, (m: TeamMember) => MapUserToValue(webappUrl, m))
  }

  // ---------------------------------------------------------------------------
  // Picker options <-> host lists
  // ---------------------------------------------------------------------------

  /** The pickers' `onChange`: one host per chosen option, in order, its id read with `parseInt(option.value, 10)`. */
  function OptionsToHosts(options: seq<MemberOption>, isFixed: bool): (hosts: seq<HostAssignment>)
    ensures |hosts| == |options|
    ensures forall i :: 0 <= i < |options| ==>
              hosts[i].isFixed == isFixed && hosts[i].userId == Decimal.ParseInt(options[i].value)
  {
    Seqs.MapSeq(options, (o: MemberOption) => HostAssignment(isFixed, Decimal.ParseInt(o.value)))
  }

  /** The fixed-host picker's `onChange`. */
  function FixedHostsChange(options: seq<MemberOption>): (hosts: seq<HostAssignment>)
    ensures |hosts| == |options|
    ensures forall i :: 0 <= i < |options| ==> hosts[i] == HostAssignment(true, Decimal.ParseInt(options[i].value))
  {
    OptionsToHosts(options, true)
  }

  /** The round-robin picker's `onChange`. */
  function RoundRobinHostsChange(options: seq<MemberOption>): (hosts: seq<HostAssignment>)
    ensures |hosts| == |options|
    ensures forall i :: 0 <= i < |options| ==> hosts[i] == HostAssignment(false, Decimal.ParseInt(options[i].value))
  {
    OptionsToHosts(options, false)
  }

  /** `host.userId.toString()` */
  function HostKey(host: HostAssignment): string
  {
    Decimal.NumberToString(host.userId)
  }

  /** `options.find((member) => member.value === key)` */
  function FindOption(options: seq<MemberOption>, key: string): Option<MemberOption>
  {
    Seqs.Find(options, (m: MemberOption) => m.value == key)
  }

  /** Whether some option's value is the host's `userId.toString()`. */
  predicate HasOption(options: seq<MemberOption>, host: HostAssignment)
  {
    FindOption(options, HostKey(host)).Some?
  }

  /** The pickers' `value`: each host's option, hosts without one dropped (`.filter(Boolean)`), in order. */
  function SelectedOptions(hosts: seq<HostAssignment>, options: seq<MemberOption>): (shown: seq<MemberOption>)
    ensures |shown| <= |hosts|
    ensures forall i :: 0 <= i < |shown| ==> shown[i] in options
    ensures var matched := Seqs.Filter(hosts, (h: HostAssignment) => HasOption(options, h));
            |shown| == |matched| &&
            forall i :: 0 <= i < |shown| ==> Some(shown[i]) == FindOption(options, HostKey(matched[i]))
  {
    if hosts == [] then []
    else
      match FindOption(options, HostKey(hosts[0]))
      case Some(o) => [o] + SelectedOptions(hosts[1..], options)
      case None => SelectedOptions(hosts[1..], options)
  }

  /** Every non-empty option value of a team member names its id, and survives `parseInt` and `toString`. */
  lemma OptionValueRoundTrip(webappUrl: string, members: seq<TeamMember>, o: MemberOption)
    requires o in TeamMemberOptions(webappUrl, members) && o.value != ""
    ensures Decimal.NumberToString(Decimal.ParseInt(o.value)) == o.value
  {
    var options := TeamMemberOptions(webappUrl, members);
    var i :| 0 <= i < |options| && options[i] == o;
    Decimal.NumberTextRoundTrip(members[i].id.value);
  }

  /** A host whose id is 0 (or NaN) matches no option: the id 0 is rendered as "". */
  lemma ZeroIdMatchesNoOption(webappUrl: string, members: seq<TeamMember>, host: HostAssignment)
    requires host.userId == Decimal.Finite(0) || host.userId.NaN?
    ensures FindOption(TeamMemberOptions(webappUrl, members), HostKey(host)).None?
  {
    var options := TeamMemberOptions(webappUrl, members);
    forall i | 0 <= i < |options|
      ensures options[i].value != HostKey(host)
    {
      if options[i].value != "" {
        var k := members[i].id.value;
        assert options[i].value == Decimal.IntToString(k);
        if host.userId == Decimal.Finite(0) && Decimal.IntToString(k) == Decimal.IntToString(0) {
          Decimal.IntToStringInjective(k, 0);
        }
      }
    }
  }

  /** Choosing options and showing the resulting hosts again gives the same options, provided the chosen
      options carry ids and no two team members share an id. */
  lemma {:induction false} SelectionRoundTrip(webappUrl: string, members: seq<TeamMember>, chosen: seq<MemberOption>, isFixed: bool)
    requires forall i :: 0 <= i < |chosen| ==> chosen[i] in TeamMemberOptions(webappUrl, members) && chosen[i].value != ""
    requires var options := TeamMemberOptions(webappUrl, members);
             forall i, j ::
               0 <= i < |options| && 0 <= j < |options| && options[i].value != "" && options[i].value == options[j].value
               ==> i == j
    ensures SelectedOptions(OptionsToHosts(chosen, isFixed), TeamMemberOptions(webappUrl, members)) == chosen
  {
    var options := TeamMemberOptions(webappUrl, members);
    if chosen != [] {
      var hosts := OptionsToHosts(chosen, isFixed);
      OptionValueRoundTrip(webappUrl, members, chosen[0]);
      assert HostKey(hosts[0]) == chosen[0].value;
      var found := FindOption(options, chosen[0].value);
      assert found.Some?;
      assert found == Some(chosen[0]);
      assert hosts[1..] == OptionsToHosts(chosen[1..], isFixed);
      SelectionRoundTrip(webappUrl, members, chosen[1..], isFixed);
    }
  }

  /** A host whose non-zero id belongs to a team member has an option, and that option's value reads back as the id. */
  lemma HostOptionRoundTrip(webappUrl: string, members: seq<TeamMember>, h: HostAssignment)
    requires h.userId.Finite? && h.userId.value != 0
    requires exists j :: 0 <= j < |members| && members[j].id == Some(h.userId.value)
    ensures HasOption(TeamMemberOptions(webappUrl, members), h)
    ensures Decimal.ParseInt(FindOption(TeamMemberOptions(webappUrl, members), HostKey(h)).value.value) == h.userId
  {
    var options := TeamMemberOptions(webappUrl, members);
    var k := h.userId.value;
    var j :| 0 <= j < |members| && members[j].id == Some(k);
    assert options[j].value == HostKey(h);
    var found := FindOption(options, HostKey(h));
    assert found.value.value == Decimal.IntToString(k);
    Decimal.ParseIntRoundTrip(k);
  }

  /** Showing stored hosts and choosing the shown options again gives back the same hosts, when every
      host has a non-zero id that belongs to a team member and sits in the picker being edited. */
  lemma {:induction false} HostsRoundTrip(webappUrl: string, members: seq<TeamMember>, hosts: seq<HostAssignment>, isFixed: bool)
    requires forall i :: 0 <= i < |hosts| ==>
               hosts[i].isFixed == isFixed && hosts[i].userId.Finite? && hosts[i].userId.value != 0 &&
               exists j :: 0 <= j < |members| && members[j].id == Some(hosts[i].userId.value)
    ensures OptionsToHosts(SelectedOptions(hosts, TeamMemberOptions(webappUrl, members)), isFixed) == hosts
  {
    var options := TeamMemberOptions(webappUrl, members);
    if hosts != [] {
      HostOptionRoundTrip(webappUrl, members, hosts[0]);
      var o := FindOption(options, HostKey(hosts[0])).value;
      HostsRoundTrip(webappUrl, members, hosts[1..], isFixed);
      var rest := SelectedOptions(hosts[1..], options);
      assert SelectedOptions(hosts, options) == [o] + rest;
      var back := OptionsToHosts([o] + rest, isFixed);
      assert back[0] == hosts[0];
      assert back[1..] == OptionsToHosts(rest, isFixed);
      assert back == [back[0]] + back[1..];
    }
  }

  // ---------------------------------------------------------------------------
  // Mutual exclusion of the two pickers
  // ---------------------------------------------------------------------------

  /** `!!hosts.find((host) => host.userId.toString() === option.value)` */
  predicate IsOptionDisabled(hosts: seq<HostAssignment>, option: MemberOption): (disabled: bool)
    ensures disabled ==> option.value != ""
  {
    Seqs.Find(hosts, (h: HostAssignment) => HostKey(h) == option.value).Some?
  }

  lemma IsOptionDisabledIff(hosts: seq<HostAssignment>, option: MemberOption)
    ensures IsOptionDisabled(hosts, option) <==> exists i :: 0 <= i < |hosts| && HostKey(hosts[i]) == option.value
    ensures option.value == "" ==> !IsOptionDisabled(hosts, option)
  {
  }

  /** In terms of ids: a member's option is disabled exactly when the member is one of the hosts. */
  lemma OptionDisabledIffMemberIsHost(webappUrl: string, hosts: seq<HostAssignment>, member: TeamMember)
    requires member.id.Some? && member.id.value != 0
    ensures IsOptionDisabled(hosts, MapUserToValue(webappUrl, member)) <==>
            exists i :: 0 <= i < |hosts| && hosts[i].userId == Decimal.Finite(member.id.value)
  {
    var option := MapUserToValue(webappUrl, member);
    var k := member.id.value;
    IsOptionDisabledIff(hosts, option);
    forall i | 0 <= i < |hosts|
      ensures HostKey(hosts[i]) == option.value <==> hosts[i].userId == Decimal.Finite(k)
    {
      assert option.value == Decimal.NumberToString(Decimal.Finite(k));
      if hosts[i].userId.Finite? && HostKey(hosts[i]) == option.value {
        Decimal.IntToStringInjective(hosts[i].userId.value, k);
      }
    }
  }

  datatype SchedulingType = Collective | RoundRobin

  /** The fixed picker disables options only in round-robin mode, where it disables the round-robin hosts. */
  predicate FixedPickerOptionDisabled(schedulingType: Option<SchedulingType>, roundRobinHosts: seq<HostAssignment>,
                                      option: MemberOption)
  {
    schedulingType == Some(RoundRobin) && IsOptionDisabled(roundRobinHosts, option)
  }

  /** The round-robin picker, shown only in round-robin mode, disables the fixed hosts. */
  predicate RoundRobinPickerOptionDisabled(fixedHosts: seq<HostAssignment>, option: MemberOption)
  {
    IsOptionDisabled(fixedHosts, option)
  }

  /** A member chosen in one picker is disabled in the other. */
  lemma ChosenInOnePickerDisabledInOther(webappUrl: string, members: seq<TeamMember>, chosen: seq<MemberOption>, i: nat)
    requires i < |chosen| && chosen[i] in TeamMemberOptions(webappUrl, members) && chosen[i].value != ""
    ensures FixedPickerOptionDisabled(Some(RoundRobin), RoundRobinHostsChange(chosen), chosen[i])
    ensures RoundRobinPickerOptionDisabled(FixedHostsChange(chosen), chosen[i])
    ensures !FixedPickerOptionDisabled(Some(Collective), RoundRobinHostsChange(chosen), chosen[i])
  {
    OptionValueRoundTrip(webappUrl, members, chosen[i]);
    assert HostKey(RoundRobinHostsChange(chosen)[i]) == chosen[i].value;
    assert HostKey(FixedHostsChange(chosen)[i]) == chosen[i].value;
  }

  // ---------------------------------------------------------------------------
  // Scheduling type
  // ---------------------------------------------------------------------------

  /** An entry of the scheduling-type select; the label is the translation key. */
  datatype SchedulingTypeOption = SchedulingTypeOption(value: SchedulingType, labelText: string)

  const SchedulingTypeOptions: seq<SchedulingTypeOption> :=
    [SchedulingTypeOption(Collective, "collective"), SchedulingTypeOption(RoundRobin, "round_robin")]

  /** Each scheduling type has exactly one option. */
  lemma SchedulingTypeOptionsOnePerType(t: SchedulingType)
    ensures exists i :: 0 <= i < |SchedulingTypeOptions| && SchedulingTypeOptions[i].value == t
    ensures forall i, j ::
              0 <= i < |SchedulingTypeOptions| && 0 <= j < |SchedulingTypeOptions| &&
              SchedulingTypeOptions[i].value == t && SchedulingTypeOptions[j].value == t
              ==> i == j
  {
    if t == Collective {
      assert SchedulingTypeOptions[0].value == t;
    } else {
      assert SchedulingTypeOptions[1].value == t;
    }
  }

  /** `schedulingTypeOptions.find((opt) => opt.value === value)` */
  function SelectedSchedulingOption(value: Option<SchedulingType>): (selected: Option<SchedulingTypeOption>)
    ensures value.None? ==> selected.None?
    ensures value.Some? ==> selected.Some? && selected.value in SchedulingTypeOptions && selected.value.value == value.value
  {
    if value.None? then None else Seqs.Find(SchedulingTypeOptions, (opt: SchedulingTypeOption) => opt.value == value.value)
  }

  /** `onChange(val?.value)` */
  function SchedulingTypeChange(val: Option<SchedulingTypeOption>): (stored: Option<SchedulingType>)
    ensures val.Some? ==> stored == Some(val.value.value)
    ensures val.None? ==> stored.None?
  {
    if val.Some? then Some(val.value.value) else None
  }

  /** Choosing an option stores its value, which selects that same option again. */
  lemma SchedulingTypeRoundTrip(i: nat)
    requires i < |SchedulingTypeOptions|
    ensures SelectedSchedulingOption(SchedulingTypeChange(Some(SchedulingTypeOptions[i]))) == Some(SchedulingTypeOptions[i])
  {
  }

  /** The host pickers shown for a scheduling type. */
  datatype HostPicker = FixedHostsPicker | RoundRobinHostsPicker

  function ShownPickers(schedulingType: Option<SchedulingType>): (pickers: seq<HostPicker>)
    ensures schedulingType == Some(Collective) ==> pickers == [FixedHostsPicker]
    ensures schedulingType == Some(RoundRobin) ==> pickers == [FixedHostsPicker, RoundRobinHostsPicker]
    ensures schedulingType.None? ==> pickers == []
  {
    match schedulingType
    case Some(Collective) => [FixedHostsPicker]
    case Some(RoundRobin) => [FixedHostsPicker, RoundRobinHostsPicker]
    case None => []
  }
}
