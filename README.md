# vivo-person-lib in Dafny

A model of `vivopeople.py`, the part of the University of Florida VIVO tools
that keeps person records fed from HR in line with the VIVO triple store, and
proofs about that model. The library does four kinds of work, and each is a
group of modules:

- **Canonicalizers**:
  - `Phone`: `repair_phone_number`.
  - `Lookup`: `get_position_type`.
  - `Jobcode`: `improve_jobcode_description`.
  - `Queries`: `find_person` and the binding walks of `make_ufid_dictionary` and
    `get_position_uris`.
  - `Text`: the Python string operations they use (`lower`, `title`, `strip`,
    `rfind`, `replace`), restricted to ASCII.
- **Entity projectors** (`Projection`, `Contacts`, `Profiles`): `get_telephone`,
  `get_name`, `get_vcard`, `get_person`, `get_position` and `get_degree`.
  - Each walks the (predicate, object) bindings of one subject and fills a
    record.
  - The store is a `Store` value: the bindings of each subject, with
    `get_triples` failing as `None`, plus the dereferencing helpers as function
    fields (`get_types` as an "is an organisation" predicate, `get_vivo_value`,
    `get_organization` and `get_datetime_interval`).
- **Materializers** (`Materialize`): `add_position`, `add_vcard` and `add_person`.
  They mint identifiers and build the `ardf` text that creates an entity.
- **Deltas** (`Reconcile`): `update_vcard`, `update_position` and
  `update_person`. These decide which sub-entities are created, updated or
  skipped.

**Records.** A record is a `map<string, Value>`. A key that is absent, a key
holding `None` (`Null`) and a key holding `""` (`Str("")`) stay distinct
(`Records`).

**The foundation.** vivofoundation is not shown, so it is kept abstract
(`Rdf`). It is a `Foundation` object whose state is:

- a counter of the identifiers `get_vivo_uri` has handed out (`next`);
- a log of the `update_entity`, `update_data_property`,
  `update_resource_property` and `add_dti` calls made (`log`).

**The texts.** An `ardf` or `srdf` text is a sequence of pieces, one of:

- an asserted triple;
- a reference to the add or the sub text of a logged call;
- a value concatenated as it is.

**Specification functions and methods.** Every operation that changes the
foundation has two parts:

- a function from the state before to the result and the state after (an
  `Outcome`);
- a method on `Foundation` with the source's loops, proved to compute that
  function.

The projectors and the canonicalizers with loops follow the same pattern, as
methods proved equal to functions.

**Dict order.** Python 2 dict iteration order is not fixed. Where a loop runs
over a dict (`add_vcard`, the direct predicates of `add_person`), the order is
an explicit parameter that enumerates the keys. The properties are proved for
every order.

**Errors.** Errors are values (`Result`): `KeyError(key)`, `NameError(name)`,
`UnboundLocalError(name)` and `TypeError`. The model follows the code as
written, including its failures:

- `update_vcard` reads an undefined `vcard` when it creates a name (line 776).
- It reads undefined `email_addresses` / `email_address` when VIVO already has
  an email (lines 865-866).
- It may read `telephone_uri` unbound at the phone step (lines 826 and 847).
- `update_position` drops the result of the interval re-link (lines 914-915).
- `update_person` appends the minted position uri to `srdf` (line 1095).
- The key `'honorfic_prefix'` is misspelt (line 1027), so the honorific prefix
  never reaches the source vcard.
- `update_person` hands `update_position` the record from `get_position`, which
  has no `uri` key. When the dates differ, `update_position` then fails with
  `KeyError('uri')`, and the model proves that it does, provided `update_entity`
  (line 895) has accepted the position without a `uri`.
- The vivofoundation calls are taken to succeed on every input. The comment at
  line 1037 suggests that `update_entity` needs a `uri` key, so in the running
  system a matched position may already fail at line 895; the model does not
  capture that.

## Model

| member | source | states |
|---|---|---|
| Text.Digits | vivopeople.py:63-66 | the collected characters are all digits and no more than the text has |
| Text.DigitsAppend | vivopeople.py:76-79 | collecting the digits of a concatenation gives the digits of each part in order, so recounting up to a split and after it loses nothing |
| Text.LastIndex | vivopeople.py:67-69 | `rfind`: -1 exactly when the character does not occur, else an index holding it with no later occurrence |
| Text.TrimStart | vivopeople.py:52 | `strip` on the left removes only whitespace and leaves none at the start |
| Text.TrimEnd | vivopeople.py:52 | `strip` on the right removes only whitespace and leaves none at the end |
| Text.TitleCase | vivopeople.py:180 | `title` upper-cases the first letter of each run of letters, lower-cases the other letters and leaves every other character unchanged |
| Text.TitleIdempotent | vivopeople.py:180 | title-casing a title-cased text changes nothing |
| Text.ReplaceAbsent | vivopeople.py:183 | `replace` of a non-empty pattern that does not occur returns the text unchanged |
| Text.ReplaceKeepsTrailingBlank | vivopeople.py:183-306 | a replace step keeps a trailing blank when a pattern ending in a blank is replaced by text ending in one |
| Phone.RepairPhoneNumber | vivopeople.py:43-118 | the method (country-code strip, digit loops, extension split, classification) returns `RepairPhone(phone)`, which is `""` or `(ddd) ddd-dddd` optionally followed by ` ext. ` and digits |
| Phone.RepairShape | vivopeople.py:94-115 | for every input, the output has the shape above, so the function never fails |
| Phone.ClassifyShape | vivopeople.py:94-113 | each branch of the digit-count classification yields `""` or a 14-character base number, and a refused number keeps no extension |
| Phone.ClassifiedShape | vivopeople.py:94-115 | attaching the surviving extension to a classified number keeps the repaired shape |
| Phone.AttachShape | vivopeople.py:114-115 | ` ext. ` and the digits are appended only to a base number and only for a non-empty extension |
| Phone.BaseNumber | vivopeople.py:102-110 | three, three and four digits in the `(ddd) ddd-dddd` frame form a base number |
| Phone.RepairRefused | vivopeople.py:111-113 | a digit count other than 7, 10, and 5 with a leading '2' or '3' gives `""`, with any extension discarded |
| Phone.SevenDigitsAlwaysRepaired | vivopeople.py:94-103 | seven digits always give `(352) ddd-dddd` plus the extension: the `'352392'` / `'352273'` tests compare a five-character slice with six-character text and never fire |
| Phone.TenDigits | vivopeople.py:104-106 | ten digits give `(d0d1d2) d3d4d5-d6..d9` plus the extension |
| Phone.ExtensionSource | vivopeople.py:67-93 | the extension comes from the text after the last blank (index > 0), else after the last 'x' (index > 0), else from the digits past the tenth; the main digits are recounted up to the split |
| Phone.NoExtensionSplit | vivopeople.py:67 | no extension is split off exactly when there are at most ten digits and no 'x' |
| Phone.SplitDigits | vivopeople.py:63-93 | the main digits and the extension digits are all digits |
| Phone.SplitKeepsDigits | vivopeople.py:63-93 | the main digits followed by the extension digits are exactly the digits of the text |
| Phone.CollectDigits | vivopeople.py:63-66 | the loop collects exactly `Digits(s)` |
| Phone.ExtractExtension | vivopeople.py:67-93 | the loops compute exactly `SplitExtension(text)` |
| Phone.ClassifyDigits | vivopeople.py:94-113 | the branch on the digit count computes exactly `Classify` |
| PhoneExamples.NoCountryCode | vivopeople.py:57-62 | a text starting with neither '+' nor '(' loses no country code |
| PhoneExamples.ClassifySeven | vivopeople.py:94-103 | seven digits `d` give `(352) d0d1d2-d3..d6` with the extension kept |
| PhoneExamples.ClassifyTen | vivopeople.py:104-106 | ten digits give `(d0d1d2) d3d4d5-d6..d9` |
| PhoneExamples.ClassifyFiveTwo | vivopeople.py:107-108 | five digits with a leading '2' give `(352) 392-d1..d4` |
| PhoneExamples.ClassifyFive | vivopeople.py:109-110 | five digits with a leading '3' give `(352) 273-d1..d4` |
| PhoneExamples.ClassifyRefused | vivopeople.py:111-113 | other counts give `""` and no extension |
| PhoneExamples.Example27737 | test_repair_phone_number.py:19 | "27737" becomes "(352) 392-7737" |
| PhoneExamples.Example2Dash7737 | test_repair_phone_number.py:20 | "2-7737" becomes "(352) 392-7737" |
| PhoneExamples.Example3524842999 | test_repair_phone_number.py:21 | "352 484 2999" becomes "(352) 484-2999" |
| PhoneExamples.Example3779999 | test_repair_phone_number.py:22 | "377 9999" becomes "(352) 377-9999" |
| PhoneExamples.Example34882X9943 | test_repair_phone_number.py:23 | "3-4882 X 9943" becomes "(352) 273-4882 ext. 9943" |
| PhoneExamples.ExampleCountryCode | test_repair_phone_number.py:24 | "+1 352 388 2888" becomes "(352) 388-2888" |
| PhoneExamples.Example888388 | test_repair_phone_number.py:25 | "888388" (six digits) becomes "" |
| PhoneExamples.ExampleExtension | test_repair_phone_number.py:26 | "272 2822 ext. 2999" becomes "(352) 272-2822 ext. 2999" |
| PhoneExamples.ExampleLetters | test_repair_phone_number.py:27 | "bd282" (three digits) becomes "" |
| Lookup.PositionType | vivopeople.py:121-168 | the result is `None` or one of the seven position types, and it is not `None` exactly for the 22 codes the table maps to a type |
| Lookup.FacultyCodes | vivopeople.py:128-134 | a code gives "faculty" exactly when it is FA09, FA10, FA12 or FASU |
| Lookup.EveryCategoryUsed | vivopeople.py:125-167 | each of the seven types is the type of some code |
| Jobcode.PaddingRemoved | vivopeople.py:179-307 | the result plus one blank is the padded, lower-cased and title-cased input run through all the replace steps in source order: the final `[:-1]` removes exactly the padding blank |
| Jobcode.ApplyKeepsTrailingBlank | vivopeople.py:183-306 | a run of steps that each keep a trailing blank keeps it |
| Jobcode.RulesKeepBlank | vivopeople.py:183-306 | every one of the steps has a non-empty pattern and keeps the trailing blank |
| Jobcode.ApplyRulesAppend | vivopeople.py:183-306 | running two lists of steps in a row is running their concatenation |
| Jobcode.ApplyWindow | vivopeople.py:183-306 | steps none of whose patterns occur in the title reached so far change nothing |
| Jobcode.ApplyNext | vivopeople.py:183-306 | running one more step is one more `replace` on the title reached so far |
| Jobcode.ExpansionsKeepBlank | vivopeople.py:189-302 | every abbreviation step has a non-empty pattern and keeps the trailing blank |
| Jobcode.ApplyAbsent | vivopeople.py:183-306 | steps whose patterns do not occur leave the title unchanged |
| Jobcode.DropLast | vivopeople.py:307 | `t[:-1]` gives the text without its last character, and `""` for `""` |
| JobcodeExamples.AssocProfTitle | vivopeople.py:179-307 | "ASSOC PROF" becomes "Assistantoc Professor": "Assoc" is never expanded to "Associate", because the step for "Ass" (line 196) runs before the one for "Assoc " (line 204) |
| JobcodeExamples.PaddedAssocProf | vivopeople.py:179-181 | "ASSOC PROF" is padded to "Assoc Prof " |
| JobcodeExamples.ExpansionsOnAssocProf | vivopeople.py:189-302 | the abbreviation steps take "Assoc Prof " to "Assistantoc Professor " |
| JobcodeExamples.Expansions189To198OnAssocProf | vivopeople.py:189-198 | of the steps on lines 189-198 only "Ass" (line 196) fires on "Assoc Prof ", giving "Assistantoc Prof " |
| JobcodeExamples.Expansions199To208OnAfterAss | vivopeople.py:199-208 | of the steps on lines 199-208 only "Prof " (line 206) fires on "Assistantoc Prof ", giving "Assistantoc Professor "; "Assoc " (line 204) finds nothing |
| JobcodeExamples.AssRewritesAssoc | vivopeople.py:196 | the step for "Ass" rewrites "Assoc Prof " to "Assistantoc Prof " |
| JobcodeExamples.ProfRewritten | vivopeople.py:206 | the step for "Prof " rewrites "Assistantoc Prof " to "Assistantoc Professor " |
| JobcodeExamples.SeparatorRulesUnchanged | vivopeople.py:183-188 | the separator steps find nothing in "Assoc Prof " |
| JobcodeExamples.RestoreRulesUnchanged | vivopeople.py:303-306 | the closing steps find nothing in "Assistantoc Professor " |
| JobcodeExamples.ApplyAllLacking | vivopeople.py:183-306 | steps whose patterns each hold a character or an adjacent pair the title lacks leave the title unchanged |
| Queries.GetPositionUris | vivopeople.py:328-338 | the loop computes exactly `PositionUris(Rows(result))` |
| Queries.PositionUrisRead | vivopeople.py:333-338 | the walk succeeds exactly when every row binds `position_uri`, and then returns those values, one per row in order; otherwise it fails with `KeyError('position_uri')` |
| Queries.PositionUrisFailed | vivopeople.py:333-338 | once a prefix fails, the whole walk fails the same way |
| Queries.MakeUfidDictionary | vivopeople.py:1109-1126 | the loop computes exactly `UfidDictionary(Rows(result))` |
| Queries.UfidDictionaryFails | vivopeople.py:1119-1125 | the fold succeeds exactly when every row binds `ufid` and `x`; otherwise it fails on the first incomplete row, with `ufid` read first |
| Queries.LastBindingWins | vivopeople.py:1119-1125 | a ufid is a key exactly when some row binds it, and it maps to the `x` of the last such row |
| Queries.UfidDictionaryFailed | vivopeople.py:1119-1125 | once a prefix fails, the whole fold fails the same way |
| Queries.FindPerson | vivopeople.py:1128-1139 | found exactly when the ufid is a key, and then the uri is its value; otherwise `[False, None]` |
| Queries.FindInUfidDictionary | vivopeople.py:1118-1139 | looking a ufid up in the built dictionary finds it exactly when some row binds it, and gives the last such row's uri |
| Profiles.FailedFetchLikeEmpty | vivopeople.py:347-351 | a store whose bindings for a uri cannot be read gives get_telephone, get_name, get_vcard, get_person (with and without `get_contact`), get_position and get_degree exactly the record a store with no bindings for it gives, as each `except` setting `count = 0` does (lines 350, 379, 412, 468, 516, 565) |
| Projection.LastIs | vivopeople.py:352-365 | no value exactly when no binding feeds the key; otherwise the object of a feeding binding with no later one |
| Projection.FieldIs | vivopeople.py:382-396 | a key of the table is in the filled record exactly when some binding has its predicate, and it holds the object of the last such binding |
| Projection.FieldsIgnore | vivopeople.py:382-396 | a binding no key of the table recognises changes nothing |
| Projection.FieldsAppend | vivopeople.py:382-396 | one more binding overwrites exactly the keys it feeds |
| Projection.ObjectsMember | vivopeople.py:423-428 | an object is collected exactly when a binding with the predicate carries it |
| Projection.ObjectsAppend | vivopeople.py:423-428 | the objects of a concatenation are those of each part, in binding order |
| Projection.LastHavingIs | vivopeople.py:534-538 | the dereferenced value is absent exactly when no binding's referent has the key, and is otherwise the value from the last binding whose referent has it |
| Projection.IntervalIs | vivopeople.py:542-548 | `datetime_interval` comes from the last interval binding; `start_date` and `end_date` come from the last interval that has them |
| Contacts.TypeStep | vivopeople.py:359-364 | a "Telephone" suffix always becomes the type; any suffix replaces an empty type; an empty suffix changes nothing |
| Contacts.TelephoneTypeIsReference | vivopeople.py:346-366 | the type loop computes a reference reading that does not replay it: `""` when no binding has a vcard type; the last "Telephone" or "Fax" named when some binding names "Telephone" or the first vcard type named is "Telephone" or "Fax" (so Telephone then Fax gives "Fax"); otherwise the first vcard type named |
| Contacts.ReferenceCases | vivopeople.py:362-364 | no vcard type gives `""`; a "Telephone" binding, or a first type of "Telephone" or "Fax", gives a telephone-or-fax type |
| Contacts.LastTelephoneOrFax | vivopeople.py:362-364 | the last "Telephone" or "Fax" suffix, `""` exactly when there is none |
| Contacts.GetTelephone | vivopeople.py:340-367 | the loop builds exactly `TelephoneRecord` of the fetched bindings |
| Contacts.TelephoneRecord | vivopeople.py:345-366 | the record holds `telephone_uri`, `telephone_type` and, when a binding has the vcard telephone predicate, `telephone_number` |
| Contacts.TelephoneWithoutBindings | vivopeople.py:345-366 | no bindings give only the uri and an empty type |
| Contacts.GetName | vivopeople.py:369-397 | the loop builds exactly `NameRecord` of the fetched bindings |
| Contacts.NameRecord | vivopeople.py:375-396 | each name key is present exactly when a binding has its predicate, and the name uri is kept |
| Contacts.NameStep | vivopeople.py:386-395 | each binding updates the name record through the five `if` tests in order |
| Contacts.NameWithoutBindings | vivopeople.py:375 | no bindings give only the name uri |
| Contacts.GetVcard | vivopeople.py:399-452 | the walk, the name and title lookups and the two dereferencing loops build exactly `VcardRecord` |
| Contacts.VcardStep | vivopeople.py:419-428 | each binding sets `title_uri`, `person_uri` or `name_uri`, or appends to the telephone or email uris |
| Contacts.VcardWithoutBindings | vivopeople.py:406-452 | no bindings give the vcard uri with empty `telephones` and `email_addresses` |
| Contacts.VcardKeys | vivopeople.py:406-451 | the keys are the vcard uri, the two lists, the walked keys, `name` when a `name_uri` was found and `title` when a `title_uri` was found; the uri lists are deleted |
| Contacts.VcardListLengths | vivopeople.py:439-450 | one telephone per hasTelephone binding and one email entry per hasEmail binding |
| Contacts.VcardTelephoneAt | vivopeople.py:439-441 | the k-th telephone is `get_telephone` of the k-th hasTelephone object, in binding order |
| Contacts.GetTelephones | vivopeople.py:439-441 | the loop dereferences each telephone uri in order |
| Contacts.GetEmailAddresses | vivopeople.py:444-450 | the loop builds one `{email_uri, email_address}` per email uri in order |
| Profiles.GetPerson | vivopeople.py:454-499 | the loop and the vcard lookup compute exactly `PersonRecord` |
| Profiles.PersonStep | vivopeople.py:475-491 | each binding updates the person record through the eight `if` tests |
| Profiles.PersonWithoutBindings | vivopeople.py:464-499 | with `get_contact=False`, no bindings give only the person uri |
| Profiles.PersonNeedsVcard | vivopeople.py:496-497 | with `get_contact=True` the projector fails exactly when no ARG_2000028 binding exists, with `KeyError('vcard_uri')` |
| Profiles.GetPosition | vivopeople.py:552-621 | the loop computes exactly `PositionRecord` |
| Profiles.PositionStep | vivopeople.py:568-619 | each binding updates the position record through the `relates`, title, label, class and interval tests |
| Profiles.PositionTypeFromClass | vivopeople.py:588-610 | `position_type` is present exactly when some object is one of the eleven classes, whatever its predicate, and holds the last such object |
| Profiles.RelatesRouted | vivopeople.py:572-582 | a `relates` object is an organisation uri (`position_orguri`) when `get_types` says so and the person uri otherwise; each key exists exactly when such a binding does |
| Profiles.PositionInterval | vivopeople.py:611-618 | `dti_uri` and `datetime_interval` come together, the interval being that of `dti_uri`; start and end dates are present exactly when some interval has them |
| Profiles.PositionKey | vivopeople.py:584-587 | a single-valued key holds the field the walk found for it |
| Profiles.PositionWithoutBindings | vivopeople.py:561-621 | no bindings give only the position uri |
| Profiles.GetDegree | vivopeople.py:501-550 | the loop computes exactly `DegreeRecord` |
| Profiles.DegreeStep | vivopeople.py:519-549 | each binding updates the degree record through the four tests |
| Profiles.DegreeNameFollowsEarned | vivopeople.py:528-530 | `degree_name` is present exactly when `earned_uri` is, and is the abbreviation of that uri |
| Profiles.InstitutionNameKept | vivopeople.py:534-538 | `institution_name` is present exactly when some trained-at organisation has a label, and holds the last such label |
| Profiles.DegreeInterval | vivopeople.py:542-548 | the interval keys are present exactly when some interval binding (having the date) exists |
| Profiles.DegreeWithoutBindings | vivopeople.py:512-550 | no bindings give only the degree uri |
| Materialize.PositionAddition | vivopeople.py:623-651 | one identifier and one `add_dti` call; the text is the `add_dti` text and then the five resource triples (type, label, interval, relates person, relates organisation) about the new uri; it fails exactly when `position_type`, `position_label` or `position_orguri` is missing, with the first one missing |
| Materialize.AddPosition | vivopeople.py:623-651 | computes exactly `PositionAddition` on the foundation |
| Materialize.VcardAddition | vivopeople.py:653-738 | the vcard uri is the first identifier minted, and 2 + (number of single-entry keys visited) identifiers are minted with no call logged |
| Materialize.VcardAdditionHeader | vivopeople.py:699-714 | the text starts with the `vcard:Individual` type, both person/vcard links, the Name type and the hasName link, even for an empty vcard |
| Materialize.VcardAdditionAsserts | vivopeople.py:698-738 | the text holds triple assertions only, so no removals |
| Materialize.VcardAdditionMints | vivopeople.py:699-731 | exactly 2 + k identifiers, k the number of the vcard's keys in `single_entry`, whatever the iteration order |
| Materialize.VcardAdditionFresh | vivopeople.py:698-738 | every triple of the text is about the person or an identifier add_vcard minted itself |
| Materialize.VcardAdditionEntry | vivopeople.py:727-737 | for every iteration order, each single-entry key of the vcard gets an identifier minted by the loop, typed with the entry's type, holding the key's value under the entry's predicate, and linked from the vcard |
| Materialize.VcardAdditionEntriesDistinct | vivopeople.py:727-737 | different single-entry keys get different identifiers |
| Materialize.EntryPiecesOnly | vivopeople.py:727-737 | the entry loop emits nothing but the triples of single-entry keys on the identifiers minted for them |
| Materialize.EntriesCounted | vivopeople.py:727-731 | for an order without repeats, the entries minted are the distinct visited single-entry keys |
| Materialize.NamePiecesIs | vivopeople.py:715-720 | a name triple is emitted exactly for each visited vcard key in the name table, with its predicate and value |
| Materialize.PhoneIgnored | vivopeople.py:677-697 | a `phone` key changes nothing `add_vcard` does (`single_entry` has only `telephone`) |
| Materialize.IgnoredKeyAddition | vivopeople.py:715-737 | any key in neither table can be dropped from the vcard and the order without changing the result |
| Materialize.AssertNames | vivopeople.py:715-720 | the name loop builds exactly the name pieces for the order |
| Materialize.AssertEntries | vivopeople.py:727-737 | the single-entry loop builds exactly the entry pieces, minting one identifier per single-entry key |
| Materialize.AddVcard | vivopeople.py:653-738 | computes exactly `VcardAddition` on the foundation |
| Materialize.PersonAdditionFails | vivopeople.py:935-978 | `add_person` succeeds exactly when `person_type` and the three position keys are present; it fails on `person_type` first, then on the first missing position key |
| Materialize.PersonAdditionHead | vivopeople.py:930-940 | the person uri is the first identifier, and the text starts with the three `rdf:type` triples before any data triple |
| Materialize.PersonAdditionFresh | vivopeople.py:918-981 | every triple add_person asserts is about an identifier minted during the call |
| Materialize.PersonAdditionMints | vivopeople.py:931-978 | 4 + (number of `primary_email`, `fax` and `preferred_title` keys of the person) identifiers, and the one `add_dti` call |
| Materialize.PersonPhoneIgnored | vivopeople.py:961-967 | a person's `phone` key is copied to the vcard but changes nothing `add_person` emits |
| Materialize.IgnoredPersonKey | vivopeople.py:935-978 | any key used by no table and by neither copy can be dropped without changing the result |
| Materialize.DirectPiecesIs | vivopeople.py:948-957 | a direct triple is emitted exactly for each table key the person has, with the table's predicate and the person's value |
| Materialize.PositionCopied | vivopeople.py:972-976 | the copied position fails on the same missing key and carries the person's dates |
| Materialize.AssertDirect | vivopeople.py:948-957 | the loop builds exactly the direct pieces for the order |
| Materialize.CopyKeys | vivopeople.py:961-966 | the copy is the person restricted to the listed keys |
| Materialize.AddPerson | vivopeople.py:918-981 | computes exactly `PersonAddition` on the foundation |
| Materialize.AssertPerson | vivopeople.py:935-957 | the method writes the person's three types and then the two direct loops' triples, exactly `PersonHead` |
| Materialize.AddContactAndPosition | vivopeople.py:959-978 | the method copies the vcard keys, runs add_vcard, copies the position keys and runs add_position, computing exactly `PersonParts` |
| Reconcile.NameStage | vivopeople.py:770-785 | no source name: nothing happens; a source name that VIVO lacks mints a uri and then fails on the undefined `vcard` (line 776); it fails exactly then or on a missing `name_uri` or a name that is not a dict; a success with a source name sets the name's `uri` to `name_uri` and logs one `update_entity` of that name towards the source name with `name_keys`, its two texts appended; the texts only grow |
| Reconcile.TitleStage | vivopeople.py:787-801 | a missing title is minted, typed and linked from the vcard, then updated from `None`, the vivo vcard getting `title_uri` and `title = None`; an existing title is updated at `title_uri` from the VIVO title to the source title, nothing minted; it fails exactly on a missing `title_uri`, or on a missing `vcard_uri` when minting; in both cases `srdf` gains exactly `update_data_property`'s sub text |
| Reconcile.PhoneStage | vivopeople.py:812-850 | a `None` or absent value is skipped; an entity is minted exactly when `telephones` is absent or empty, and then fails with `KeyError('vcard_uri')` after the mint when the vcard has no `vcard_uri`, and otherwise is bound as the telephone with no old number, linked by `vcard:hasTelephone` and typed before the add text, and updated from `None`; when a telephone is reused, `ardf` gains only the add text; a successful step makes exactly one `update_data_property` with the uri and number it holds, and `srdf` gains exactly its sub text |
| Reconcile.Visit | vivopeople.py:821-825 | reading a telephone fails unless it is a dict with a type (and a uri and number when it is of the kind); a telephone of the kind rebinds the locals, any other leaves them |
| Reconcile.ScanLastWins | vivopeople.py:821-825 | the loop fails exactly when some telephone cannot be read; it ends on the LAST telephone of the kind (`continue`, not `break`), or keeps the locals when there is none |
| Reconcile.PhoneUsesLastOfKind | vivopeople.py:820-829 | with VIVO telephones, the update goes to the last telephone of the kind |
| Reconcile.PhoneWithoutKind | vivopeople.py:820-829 | with none of the kind: `UnboundLocalError('telephone_uri')` at the phone step, and the locals the phone step left when there are any |
| Reconcile.FaxOverwritesPhone | vivopeople.py:812-850 | with no fax in VIVO, the fax update reuses the telephone uri and old number of the phone step |
| Reconcile.EmailStage | vivopeople.py:854-870 | no email or `None`: nothing; VIVO emails present: `NameError('email_addresses')` (line 865); otherwise one uri is minted, linked from the vcard with `vcard:hasEmail` and typed `vcard:Email`, and `update_data_property` sets its `vcard:email` from `None` to the source email (or `KeyError('vcard_uri')` after the mint); texts only grow |
| Reconcile.VcardDelta | vivopeople.py:740-872 | the failing name creation is the NameError on `vcard` after one mint; a success has only add pieces in `ardf` and only sub pieces in `srdf` (what a successful run logs, key by key, is `Reconcile.VcardDeltaCalls`) |
| Reconcile.VcardDeltaCalls | vivopeople.py:740-872 | a successful run logs one call for each source key it acts on, in the order name, title, phone, fax, email, and no other call: `update_entity` with `name_keys` for the name, `update_data_property` to the source value for the others, from `None` for the email |
| Reconcile.FreshContactsRun | vivopeople.py:770-870 | with a VIVO name and title and no telephones or emails, and all five source values, the run succeeds, mints three uris, and logs the name update, the title update at `title_uri`, then the new telephone, fax and email, in that order |
| Reconcile.ScanTelephones | vivopeople.py:821-825 | the loop computes exactly `Scan` |
| Reconcile.UpdateVcard | vivopeople.py:740-872 | computes exactly `VcardDelta` on the foundation |
| Reconcile.PositionDelta | vivopeople.py:874-916 | one `update_entity` first; equal dates: only its two texts; differing dates: the `add_dti` text is added, the re-link is called and its result dropped, or with no `uri` it fails with `KeyError('uri')`, and only then, provided `update_entity` succeeds |
| Reconcile.RelinkDropped | vivopeople.py:913-916 | no piece of the returned texts refers to the `update_resource_property` call |
| Reconcile.UpdatePosition | vivopeople.py:874-916 | computes exactly `PositionDelta` on the foundation |
| Reconcile.DatesChangeFails | vivopeople.py:914 | a position read by `get_position` whose dates differ from the source's makes `update_position` fail on `uri` |
| Reconcile.PersonKeyTable | vivopeople.py:1008-1044 | `person_type` is in the key table exactly when `hr_position` is not False; every other key is as in the direct table |
| Reconcile.SourceVcard | vivopeople.py:1053-1061 | the source vcard has a `name` of the copied name keys, the person uri, and exactly the flat keys the source has |
| Reconcile.HonorificPrefixLost | vivopeople.py:1027 | `honorific_prefix` never reaches the source name, while the misspelt key is copied |
| Reconcile.FirstMissing | vivopeople.py:1073-1075 | no key missing exactly when all are present; otherwise a listed key the source lacks |
| Reconcile.CopyPosition | vivopeople.py:1073-1076 | the loop fails with `KeyError` on the first missing position key, and otherwise copies them and adds the person uri |
| Reconcile.SourcePosition | vivopeople.py:1073-1076 | the source position holds the person uri and every present position key with its value |
| Reconcile.PositionsDeltaShape | vivopeople.py:1078-1091 | the loop only appends; with no match it changes nothing; with a match the sub text ends with a sub piece; the only failure is `KeyError('uri')` |
| Reconcile.PositionsUpdatedIff | vivopeople.py:1078-1091 | `updated` is set exactly when some VIVO position matches on type and organisation |
| Reconcile.PositionsDeltaLog | vivopeople.py:1078-1091 | every matching position is updated, not just the first: one `update_entity` per match, in order, and nothing minted |
| Reconcile.PositionsFailOnDates | vivopeople.py:1083-1087 | a matching position without `uri` whose dates differ makes the loop fail on `uri` |
| Reconcile.PositionsUnmatched | vivopeople.py:1078-1092 | with no match the loop changes nothing |
| Reconcile.UpdatePositions | vivopeople.py:1079-1091 | the loop computes exactly `PositionsDelta` on the fetched positions |
| Reconcile.UpdatePersonPositions | vivopeople.py:1073-1095 | computes exactly the position part of update_person |
| Reconcile.UpdatePerson | vivopeople.py:983-1097 | computes exactly `PersonDelta` on the foundation |
| Reconcile.PersonUpdatedFirst | vivopeople.py:1041-1047 | the first call is `update_entity` of the vivo person with `uri` set to its `person_uri`, under a key table that holds `person_type` exactly when `hr_position` is not False |
| Reconcile.PersonPositionsByLoop | vivopeople.py:1077-1091 | the loop's failure is the failure of the position part of update_person (everything after update_vcard); when it updated, its texts are that part's |
| Reconcile.PersonPositionsByAddition | vivopeople.py:1092-1095 | with no update, `add_position` runs and its minted uri is appended to `srdf` as it is |
| Reconcile.PositionAddedWhenUnmatched | vivopeople.py:1092-1095 | with no match, six pieces are added, the minted position uri ends `srdf`, and one identifier and one `add_dti` are used |
| Reconcile.PositionUpdatedWhenMatched | vivopeople.py:1079-1091 | with a match, nothing is minted, the log gains one `update_entity` per match, and the sub text ends with a sub piece |
| Reconcile.PersonPositionsFailOnDates | vivopeople.py:1083-1087 | a matching VIVO position with other dates makes the position part of update_person (everything after update_vcard) fail with `KeyError('uri')`, because update_position reads the missing key at line 914 |
| Reconcile.PersonDeltaFailsOnDates | vivopeople.py:1040-1087 | when the person's `update_entity` and update_vcard have gone through, a matching VIVO position with other dates makes update_person as a whole fail with `KeyError('uri')` |
| Reconcile.PersonDeltaAfterVcard | vivopeople.py:1065-1097 | once update_vcard has gone through, update_person's outcome is its position part's, started from the texts of the person's `update_entity` and of update_vcard |
| Reconcile.SourcePositionAgrees | vivopeople.py:1083-1086 | matching and date comparison against the copied source position are those against the source person |

## Left out

- `repair_email` (lines 31-41): its regex search needs a regular-expression engine that is not part of this model.
- The SPARQL query texts and their templating (lines 317-327, 1104-1108): a query result is a parameter.
- Prints and debug output (lines 116-117, 1063-1064, 1081-1082, 1114-1116).
- `phone.encode('ascii', 'ignore')` (line 50): input is taken as ASCII, with `lower` and `title` on ASCII letters only.
- `datetime` values are opaque values compared only for equality.
- Everything inside vivofoundation is left out. This covers `get_triples`, `vivo_sparql_query`, `get_vivo_value`, `get_types`, `get_organization`, `get_datetime_interval`, `update_entity`, `update_data_property`, `update_resource_property`, `add_dti`, `assert_*_property`, `untag_predicate` and `get_vivo_uri`. The texts these emit are symbolic; the model records which calls are made, with which arguments, and how their results are joined.
- The callers' dicts are not aliased. `update_vcard` changes `vivo_vcard` in place (lines 778-781, 795-796); the model returns the changed vcard as a value (`Pass.vivo`).
- `Reconcile.UpdatePerson`: the changes `update_person` makes to `vivo_person` in place are not modelled: the `uri` key it sets (line 1042) and the vcard `update_vcard` changes through `vivo_person['vcard']` are neither returned nor visible to the caller. Only the two texts and the foundation's state are.
- `Reconcile.PositionDelta`: `update_entity` is taken to succeed on a position without `uri`; whether vivofoundation accepts one is not part of this model.
- `get_degree` catches only `KeyError` (line 516), while the other projectors catch everything. `Fetch` treats every failed fetch as no bindings, so a fetch failure of another kind, which `get_degree` would let escape, is not told apart.
- `Reconcile.PersonKeyTable`: values have no numbers, so only the flag `False` compares equal to `False`; Python's `0 == False` is not modelled.
- `Reconcile.UpdatePerson`: a `vivo_person['vcard']` that is not a dict is treated as a TypeError, because Python's failure there depends on the value's type.
- The mint tag of the phone step is `vcard:telephone` in lower case, as written at line 818. The fax step uses `vcard:Fax`.
