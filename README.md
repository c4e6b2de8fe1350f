# Form-field values, host reassignment and team hosts: a Dafny model

This project models the value-handling logic in three React files of the scheduling application.

- **The form builder's field registry** (`packages/features/form-builder/Components.tsx`):
  - the shape validator for each props type (`isValidValueProp`);
  - for each field type, the value its change handlers pass to `setValue`: the `name` field's sub-field merge and its configuration errors, the `multiemail` list editing, the `checkbox` toggle, the `radio` choice and the `radioInput` composite.
- **The booking reassignment dialog** (`apps/web/components/dialog/ReassignDialog.tsx`):
  - which hosts a booking may be reassigned to, and the picker options built from them;
  - the dialog's two-state choice between round-robin and a chosen member;
  - the confirm action, which sends a request only in the round-robin state.
- **The event type's team tab** (`apps/web/components/eventtype/EventTeamTab.tsx`):
  - team members turned into picker options (`mapUserToValue`);
  - the conversions between picker options and the fixed and round-robin host lists;
  - the rule that an option chosen in one picker is disabled in the other;
  - the scheduling-type select.

Files:

- `Wrappers.dfy`: `Option` and `Result`.
- `Seqs.dfy`: JavaScript's `filter`, `map` and `find`, and the subsequence relation.
- `Decimal.dfy`: number-to-text conversion of integers and `parseInt(s, 10)`. Its `Number` type is an integer or `NaN`.
- `JsValues.dfy`: a datatype of JavaScript values (undefined, null, boolean, integer, string, array, record), with `typeof`, truthiness, object spread and `in`.
- `FormBuilderComponents.dfy`: the form builder's registry.
- `ReassignDialog.dfy`: the reassignment dialog. `Dialog` is a class: its `useState` cells and the parent's open flag are fields, and a list of issued requests stands for the calls to the remote mutation.
- `EventTeamTab.dfy`: the team tab.

Behaviours of the code worth noting, which the model keeps as written:

- `variants` accepts arrays too, because `typeof [] === "object"`.
- `radioInput` initialises any falsy value, not only an unset one.
- The checkbox toggle removes every copy of the option's value, not just one.
- In the split-name variant, the shape check throws with the message text "Invalid value for 'fullName' variant". The model keeps that text.
- A `null` value passes the split variant's `typeof value !== "object"` check. It renders when the variant has no sub-fields, and fails with a TypeError otherwise.
- `${username}` writes a null username as `null`, so the avatar path becomes `…/null/avatar.png`.

Calls into code that is not part of this model become parameters:

- `preprocessNameFieldDataWithVariant` is the function argument `preprocess` of `NameFactory`.
- `WEBAPP_URL` is the string argument `webappUrl`.
- The `roundRobinReassign` mutation is a request appended to `Dialog.requests`.

## Model

| member | source | states |
|---|---|---|
| FormBuilderComponents.BooleanAcceptsExactlyBooleans | packages/features/form-builder/Components.tsx:30 | the `boolean` validator accepts a value iff it is a boolean |
| FormBuilderComponents.TextAndSelectAcceptExactlyStrings | packages/features/form-builder/Components.tsx:33-34 | the `text` and `select` validators accept a value iff it is a string |
| FormBuilderComponents.StringListsAcceptExactlyStringArrays | packages/features/form-builder/Components.tsx:31-35 | `multiselect` and `textList` accept exactly the arrays whose every element is a string; the empty array is accepted |
| FormBuilderComponents.IsValidValueProp | packages/features/form-builder/Components.tsx:29-37 | the validator for each props type; none of them accepts `undefined` or `null` |
| FormBuilderComponents.EveryStringIff | packages/features/form-builder/Components.tsx:31 | `every(v => typeof v === "string")` holds iff each element is a string |
| FormBuilderComponents.ObjectiveWithInputAcceptsRecordsWithValue | packages/features/form-builder/Components.tsx:32 | `objectiveWithInput` accepts exactly records with a `value` key; null, primitives and arrays are refused |
| FormBuilderComponents.VariantsAcceptsObjectsAndStrings | packages/features/form-builder/Components.tsx:36 | `variants` accepts every string and every non-null object, arrays included |
| FormBuilderComponents.VariantName | packages/features/form-builder/Components.tsx:113 | an absent variant means `fullName`; a given one is used as is |
| FormBuilderComponents.NameFactory | packages/features/form-builder/Components.tsx:125-162 | fails when `variants` is absent, when the variant name is neither `fullName` nor `firstAndLastName`, when a `fullName` value is not a string, or when a `firstAndLastName` value is not of type object; each failure carries the source's message. A string `fullName` value renders one input bound to that string and configured by the variant's first field, and throws a TypeError when the variant or its first field is missing. An object-typed `firstAndLastName` value renders the variant's fields over that value, and throws a TypeError when the variant is missing or when the value is null and there are fields to read |
| FormBuilderComponents.NameVariantDefaultsToFullName | packages/features/form-builder/Components.tsx:113 | rendering without a variant is the same as rendering with `fullName` |
| FormBuilderComponents.FullNameChange | packages/features/form-builder/Components.tsx:151-153 | the full-name input stores the typed text, which the `variants` and `text` validators accept |
| FormBuilderComponents.NameSubFieldChange | packages/features/form-builder/Components.tsx:114-122 | the result is a record with the sub-field set to the new text; every other key of a record value is kept, and no key is added besides the sub-field; a non-object or null value counts as `{}` |
| FormBuilderComponents.NameSubFieldChangeOnArray | packages/features/form-builder/Components.tsx:115-121 | an array value (an object too) is spread into the result under its element indices, and the result has no key other than those indices and the changed sub-field |
| FormBuilderComponents.NameSubFieldChangesCommute | packages/features/form-builder/Components.tsx:114-122 | changes to two distinct sub-fields commute; repeating a change is idempotent |
| FormBuilderComponents.NormaliseEmails | packages/features/form-builder/Components.tsx:230 | an absent email list becomes a fresh empty list; a present one is the same object, which the handlers then change in place |
| FormBuilderComponents.EmailList.Add | packages/features/form-builder/Components.tsx:280-283 | both add buttons append exactly one `""` (length +1) and pass the same list to `setValue` |
| FormBuilderComponents.EmailList.Edit | packages/features/form-builder/Components.tsx:246-248 | editing entry `index` replaces exactly that entry; the length is unchanged |
| FormBuilderComponents.EmailList.Remove | packages/features/form-builder/Components.tsx:260-262 | removing entry `index` deletes exactly it and shifts the later entries down (length −1) |
| FormBuilderComponents.AddEmailButtonShown | packages/features/form-builder/Components.tsx:273-305 | no add button when read-only; otherwise "add guests" for an empty list and "add another" for a non-empty one |
| FormBuilderComponents.CheckboxToggle | packages/features/form-builder/Components.tsx:333-347 | the new selection is `value \|\| []` with every copy of the option's value filtered out, then that value appended iff checked |
| FormBuilderComponents.ToggleSetsCheckedState | packages/features/form-builder/Components.tsx:343-351 | after a toggle the option shows as checked iff it was checked; every other option keeps its checked state |
| FormBuilderComponents.ToggleCountsAndOrder | packages/features/form-builder/Components.tsx:343-346 | the toggled value occurs once if checked and not at all otherwise; every other value keeps its count, and the kept entries are a subsequence of the old selection |
| FormBuilderComponents.ToggleOnThenOff | packages/features/form-builder/Components.tsx:343-346 | checking an unchecked option appends it at the end; unchecking it again restores the old selection |
| FormBuilderComponents.ListValues | packages/features/form-builder/Components.tsx:315 | one `(title, value)` entry per option, in order, titled with the option's label |
| FormBuilderComponents.BooleanChange | packages/features/form-builder/Components.tsx:469-475 | the boolean checkbox stores a boolean that is true iff the box is checked |
| FormBuilderComponents.RadioItemValues | packages/features/form-builder/Components.tsx:371-377 | each radio item's value is its option's label |
| FormBuilderComponents.RadioChange | packages/features/form-builder/Components.tsx:367-369 | the chosen item's value is stored unchanged, as a string |
| FormBuilderComponents.RadioStoresLabel | packages/features/form-builder/Components.tsx:366-376 | choosing option `i` stores its label, which differs from its value whenever the label does; afterwards exactly the options sharing that label show as checked |
| FormBuilderComponents.RadioInputInit | packages/features/form-builder/Components.tsx:387-394 | a value is set iff the current one is falsy; the set value is `{value: options[0]?.value, optionValue: ""}`, with no other key, and passes the `objectiveWithInput` validator |
| FormBuilderComponents.RadioInputInitIsOneShot | packages/features/form-builder/Components.tsx:387-394 | once initialised, the value is truthy, so the effect sets nothing more |
| FormBuilderComponents.RadioInputChoose | packages/features/form-builder/Components.tsx:410-415 | choosing a radio option stores `{value: option.value, optionValue: ""}`, a record with exactly those two keys |
| FormBuilderComponents.RadioInputChooseChecks | packages/features/form-builder/Components.tsx:410-416 | after choosing option `i`, option `j` shows as checked iff its value equals option `i`'s |
| FormBuilderComponents.RadioInputSubFieldChange | packages/features/form-builder/Components.tsx:449-454 | the dependent input keeps `value?.value` and stores `val \|\| ""` as `optionValue`, in a record with exactly those two keys; the result passes the `objectiveWithInput` validator |
| JsValues.IndexEntriesAt | packages/features/form-builder/Components.tsx:120 | spreading an array copies element `i` under the key `String(i)` |
| ReassignDialog.HostsToReassignAsWritten | apps/web/components/dialog/ReassignDialog.tsx:33-35 | undefined `hosts` gives undefined; otherwise the result is no longer than `hosts`, and every host in it passes the callback as written |
| ReassignDialog.MatchingAssignment | apps/web/components/dialog/ReassignDialog.tsx:34 | the search finds an assigned email iff the host is not fixed and its email is among the defined `assignedHosts`; what it finds is that email |
| ReassignDialog.AsWrittenKeepsAssignedEmptyEmail | apps/web/components/dialog/ReassignDialog.tsx:33-35 | the filter as written keeps a non-fixed host with email `""` although `""` is assigned, and the picker offers it as `{label: "", value: 1}`; the intended rule drops it |
| ReassignDialog.AsWrittenAgreesWithoutEmptyEmails | apps/web/components/dialog/ReassignDialog.tsx:33-35 | when no host's email is empty, the filter as written and the intended rule give the same hosts |
| ReassignDialog.HostsToReassignIsSubsequence | apps/web/components/dialog/ReassignDialog.tsx:33-35 | the filter as written, and the intended rule, each keep a subsequence of `hosts`, in the same order; undefined `hosts` stays undefined |
| ReassignDialog.AsWrittenMembership | apps/web/components/dialog/ReassignDialog.tsx:33-35 | as written, a fixed host is always kept, and a non-fixed host is dropped iff `assignedHosts` is defined, holds its email, and that email is not `""` |
| ReassignDialog.HostsToReassignMembership | apps/web/components/dialog/ReassignDialog.tsx:34 | the intended rule: a fixed host is always kept; a non-fixed host is dropped iff `assignedHosts` is defined and holds its email |
| ReassignDialog.HostOptionOf | apps/web/components/dialog/ReassignDialog.tsx:38-40 | the option's label is the user's name, or `""` for a null name; its value is the user's id |
| ReassignDialog.HostsToReassignOptions | apps/web/components/dialog/ReassignDialog.tsx:33-40 | one option per host the filter keeps as written, in the same order; undefined `hosts` gives `[]` |
| ReassignDialog.MemberReassignStep | apps/web/components/dialog/ReassignDialog.tsx:61 | the picker's shown value is an option whose value is `selectedHost`, and nothing is shown iff no option has that value |
| ReassignDialog.NoAvailableHostsIsUnreachable | apps/web/components/dialog/ReassignDialog.tsx:37-46 | the options array is always truthy, so the "no available hosts" view is never shown, even with no option |
| ReassignDialog.Dialog.constructor | apps/web/components/dialog/ReassignDialog.tsx:77-78 | the dialog starts with target `round-robin`, selected host 0 and no request sent |
| ReassignDialog.Dialog.OpenChange | apps/web/components/dialog/ReassignDialog.tsx:85-87 | the open flag follows the dialog; nothing else changes |
| ReassignDialog.Dialog.ChooseTarget | apps/web/components/dialog/ReassignDialog.tsx:89-105 | a radio click sets the target; nothing else changes |
| ReassignDialog.Dialog.SelectHost | apps/web/components/dialog/ReassignDialog.tsx:54-58 | a selection sets the selected host to the option's value; a null selection leaves it unchanged |
| ReassignDialog.Dialog.Confirm | apps/web/components/dialog/ReassignDialog.tsx:121-129 | confirm sends `(teamId, eventTypeId, bookingId)` once iff the target is `round-robin` and otherwise does nothing; the open flag, target and selection are unchanged |
| ReassignDialog.Dialog.MemberStep | apps/web/components/dialog/ReassignDialog.tsx:107-116 | the member picker is rendered iff the target is `choose-member`, and it lists the options of the hosts the filter keeps as written |
| Decimal.ParseIntRoundTrip | apps/web/components/eventtype/EventTeamTab.tsx:55 | `parseInt(String(i), 10)` is `i` for every integer `i` |
| Decimal.IntToStringInjective | apps/web/components/eventtype/EventTeamTab.tsx:22 | distinct integers have distinct decimal texts |
| EventTeamTab.IdText | apps/web/components/eventtype/EventTeamTab.tsx:22 | the text is `""` iff the id is null or 0; otherwise it is the id's decimal text, which `parseInt` reads back as the id |
| EventTeamTab.MapUserToValue | apps/web/components/eventtype/EventTeamTab.tsx:21-26 | the value is `${id \|\| ""}`: `""` iff the id is null or 0, and otherwise the id's decimal text, which parses back to the id; the label is the name or `""`; the email is copied; the avatar is `WEBAPP_URL/<username>/avatar.png`, with `null` for a missing username |
| EventTeamTab.TeamMemberOptions | apps/web/components/eventtype/EventTeamTab.tsx:105 | one option per team member, in order |
| EventTeamTab.OptionsToHosts | apps/web/components/eventtype/EventTeamTab.tsx:53-56 | one host per chosen option, in order and with the same length, with the given `isFixed` and `userId = parseInt(option.value)` |
| EventTeamTab.FixedHostsChange | apps/web/components/eventtype/EventTeamTab.tsx:51-57 | the fixed picker stores `{isFixed: true, userId: parseInt(value)}` for each chosen option, in order |
| EventTeamTab.RoundRobinHostsChange | apps/web/components/eventtype/EventTeamTab.tsx:158-164 | the round-robin picker stores `{isFixed: false, userId: parseInt(value)}` for each chosen option, in order |
| EventTeamTab.SelectedOptions | apps/web/components/eventtype/EventTeamTab.tsx:59-65 | the displayed selection is, in host order, the first option whose value is `userId.toString()` for each host that has one; hosts without a match are dropped |
| EventTeamTab.HostOptionRoundTrip | apps/web/components/eventtype/EventTeamTab.tsx:59-65 | a host whose non-zero id belongs to a team member has an option, and `parseInt` of that option's value is the host's id |
| EventTeamTab.HostsRoundTrip | apps/web/components/eventtype/EventTeamTab.tsx:51-65 | displaying stored hosts and choosing the displayed options again gives back the same hosts, when every id is non-zero and belongs to a team member |
| EventTeamTab.OptionValueRoundTrip | apps/web/components/eventtype/EventTeamTab.tsx:55-63 | for every non-empty option value, `parseInt` followed by `toString` gives back the value |
| EventTeamTab.ZeroIdMatchesNoOption | apps/web/components/eventtype/EventTeamTab.tsx:166-174 | a host with `userId` 0 or NaN matches no team member's option |
| EventTeamTab.SelectionRoundTrip | apps/web/components/eventtype/EventTeamTab.tsx:51-65 | choosing options with ids and then displaying the stored hosts gives back exactly the chosen options, when no two team members share a non-empty option value |
| EventTeamTab.IsOptionDisabled | apps/web/components/eventtype/EventTeamTab.tsx:142-144 | `!!hosts.find(...)`; an option with value `""` is never disabled |
| EventTeamTab.IsOptionDisabledIff | apps/web/components/eventtype/EventTeamTab.tsx:142-144 | an option is disabled iff some host's `userId.toString()` equals its value; an option with value `""` is never disabled |
| EventTeamTab.OptionDisabledIffMemberIsHost | apps/web/components/eventtype/EventTeamTab.tsx:177-181 | the option of a member with a non-zero id is disabled iff some host's `userId` is that id |
| EventTeamTab.ChosenInOnePickerDisabledInOther | apps/web/components/eventtype/EventTeamTab.tsx:138-181 | in round-robin mode, a member chosen as a round-robin host is disabled in the fixed picker, and a member chosen as a fixed host is disabled in the round-robin picker; in collective mode the fixed picker disables nothing |
| EventTeamTab.SchedulingTypeOptionsOnePerType | apps/web/components/eventtype/EventTeamTab.tsx:88-103 | the select offers exactly one option for each scheduling type |
| EventTeamTab.SelectedSchedulingOption | apps/web/components/eventtype/EventTeamTab.tsx:119 | the selected option is the one whose value equals the form value; no option is selected when there is no value |
| EventTeamTab.SchedulingTypeChange | apps/web/components/eventtype/EventTeamTab.tsx:121-123 | choosing an option stores its value; clearing the select stores undefined |
| EventTeamTab.SchedulingTypeRoundTrip | apps/web/components/eventtype/EventTeamTab.tsx:92-123 | storing an option of `[COLLECTIVE, ROUND_ROBIN]` selects that same option |
| EventTeamTab.ShownPickers | apps/web/components/eventtype/EventTeamTab.tsx:129-148 | collective mode shows the fixed picker only; round-robin mode shows the fixed and round-robin pickers; no mode shows none |

## Left out

- Rendering is not modelled: JSX, CSS classes, and the text `t()` translates (labels are kept as their translation keys). The `PhoneInput`, `AddressInput`, `Widgets.*`, `Checkbox`, `EmailField`, `Select` and `CheckedTeamSelect` controls are left out too. They are UI, or external components whose code is not part of this model.
- The `text`, `textarea`, `number`, `email`, `phone` and `address` factories are thin pass-throughs to those controls.
- The `Components` table itself and the `propsTypes` mapping from field type to props type are left out. `propsTypes` is defined in a file that is not part of this model.
- The member picker's `defaultValue={hostsToReassignOptions[0]}` is left out (rendering). Only its `value` is modelled.
- `ComponentForField` is left out, and with it the rendering of `radioInput`'s dependent input and its lookup `optionsInputs[value?.value]`. Only that input's `setValue` is modelled.
- The `radioInput` single-option label and its required marker are left out (rendering). So is the TypeError that `options[0].label` raises when there are no options.
- Per-input values of the split name form are left out. The model records the object-typed value the inputs read from.
- React's `useEffect` and `useState` timing and re-rendering are left out. The `radioInput` effect is a "set if falsy" function, and the dialog's state cells are class fields.
- Stale closures are left out: a handler that runs after the list it captured was changed. The multiemail handlers require an index inside the list, because they are created by `value.map`.
- The tRPC mutation, query invalidation, toasts and error handling are network and backend calls. A confirm is an appended `ReassignRequest`. In the choose-member state, confirm does nothing, because the source leaves that branch empty.
- JavaScript numbers are integers here; fractions and precision beyond 2^53 are not modelled. `parseInt` skips no leading whitespace.
- Object-spread key order is not modelled, and neither are keys inherited from `Object.prototype` in `in`.
- The scheduling-method radio group and the `team &&` guard are left out (rendering only). So is the commented-out minimum-host-count field.
- `SchedulingType` has the two values this file uses. The rest of the enum is defined elsewhere.
- The workflows list page, the demo app's install button and metadata, and the events API module hold no self-contained logic: they are mutation wiring, config spreading and dependency-injection boilerplate.

## Findings

| source | as written | input that shows it | evidently intended | confidence | as-written member | corrected member |
|---|---|---|---|---|---|---|
| apps/web/components/dialog/ReassignDialog.tsx:34 | the filter keeps a host when `!assignedHosts?.find(a => a === host.user.email && !host.isFixed)`, which negates the found email string, and `""` is falsy | a non-fixed host with email `""`, with `assignedHosts = [""]`: the host is kept | drop every non-fixed host whose email is among the assigned hosts | low; not executed; only an empty email triggers it | ReassignDialog.AsWrittenKeepsAssignedEmptyEmail | ReassignDialog.HostsToReassignMembership |

The options and the member step are built from the filter as written, as the component builds them; the intended rule is `HostsToReassign`. `AsWrittenAgreesWithoutEmptyEmails` shows that the two rules agree whenever no host's email is empty.
