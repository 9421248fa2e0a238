# openIMIS FHIR API — a Dafny model

This project models the core of the openIMIS FHIR API, a Django application that translates between openIMIS records and HL7 FHIR resources. It covers three things:

- **The generic FHIR object model.** This is `FHIRBaseObject` and its property definitions: the value `__setattr__` checks, the cardinality and type errors it raises, and the subclass registry used to look resource types up by name.
- **Serialization.** These are the dictionary and JSON round trips of FHIR objects.
- **The converters.** Each converter turns an openIMIS record into a FHIR resource (`to_fhir_obj`) and back (`to_imis_obj`):
  - STU3 (`api_fhir`): patient, claim, claim response, location, operation outcome and practitioner role;
  - R4 (`api_fhir_R4`): claim response, location, medication and activity definition.

All of this is modelled on values:
- A FHIR resource is a datatype holding its own fields.
- An openIMIS record is a datatype holding the columns the converters read and write.
- A converter is a pair of functions. The encoding side builds a resource from a record. The decoding side returns either the rebuilt record together with the validation errors collected on the way, or the `FHIRException` the source raises.
- The configuration singleton is a class, because the source writes its fields in place.
- The modelled Python string helpers (`split`, `join`, `lstrip`, `int()`) are written out in the `Strings` module.
- Where a decoder indexes a dictionary of the request body (`name['use']`), a missing key, a key holding `None` and a key holding a value are three cases (`FhirTypes.Field`): the first raises KeyError, while `get` treats the first two alike.

The central properties are round trips. Decoding what a converter encoded gives back the fields the converter carries, with no validation errors. Each property is proved per field and for the whole record. The defects found on the way are listed under "## Findings". Each defect is modelled as written in one member and corrected in another, and the rest of the model uses the corrected one.

In two places the model keeps what the code does, although a reader might expect otherwise:
- The type check of `FHIRBaseObject` compares against `eval_type`. For a class object that gives `object`, so a nested-object property accepts any object. The model keeps this weaker check.
- In the STU3 patient converter, identifiers and the marital status are written inside a `coding` but read back from the bare identifier type. So they do not survive a round trip. `PatientConverter.EncodedIdentifiersNotReadBack` and `PatientConverter.EncodedMaritalNotReadBack` state this.

## Model

| member | source | states |
|---|---|---|
| Definitions.NewPropertyDefinition | api_fhir/models/__init__.py:14-20 | a definition exists exactly when the name holds no space; it keeps name, type, minimum and requiredness, and its maximum is unbounded exactly for `'*'` and the given number otherwise |
| Definitions.ListValuedIffStarOrAboveOne | api_fhir/models/__init__.py:18 | a property is list-valued exactly when it was declared with `'*'` or a maximum above one |
| Exceptions.RequestProcessMessageListsEveryError | api_fhir/exceptions/__init__.py:9-13 | the message of a request-process exception starts with the fixed prefix and contains every error it was given |
| Exceptions.SingleErrorMessage | api_fhir/exceptions/__init__.py:9-13 | with one error the message is exactly the prefix followed by that error, as the operation-outcome test expects |
| Exceptions.Hierarchy | api_fhir/exceptions/__init__.py:4-44 | a cardinality error is a `PropertyError` and a `FHIRException`; type and format errors are not `FHIRException`s |
| Exceptions.UnboundedMaxSizeMessage | api_fhir/exceptions/__init__.py:27-32 | the cardinality message of an unbounded property ends with its maximum printed as `inf` |
| ObjectModel.FindProp | api_fhir/models/__init__.py:126-133 | the property found under a name is one the class declares with that name; none is found only when no declared property has it |
| ObjectModel.FindDeclared | api_fhir/models/__init__.py:113-120 | in a well-formed namespace every declared property is found under its own name |
| ObjectModel.EvalType | api_fhir/models/__init__.py:23-27 | a class object resolves to `object`; a name resolves to that class of the namespace, and fails exactly when the namespace lacks it |
| ObjectModel.ValidateType | api_fhir/models/__init__.py:32-41 | `None` fails exactly for a required property; a property declared with a class object accepts any other value; a type error is raised only for a `PropertyMixin` subclass the value is not an instance of, and for such a declared type (dates aside) exactly then |
| ObjectModel.AppendItem | api_fhir/models/__init__.py:54-59 | append succeeds exactly when the value validates and the list has room; it then adds the value at the end; a full list raises `PropertyMaxSizeError`, and the validation error comes first |
| ObjectModel.InsertPosition | api_fhir/models/__init__.py:66 | the index Python's `list.insert` uses: in range it is kept, a negative one counts from the end, and out-of-range ones are clamped to the ends |
| ObjectModel.PyInsert | api_fhir/models/__init__.py:66 | inserting grows the list by one, puts the value at the insert position and shifts everything after it |
| ObjectModel.PyInsertAddsOne | api_fhir/models/__init__.py:66 | inserting adds exactly one occurrence of the value and loses no element |
| ObjectModel.InsertItem | api_fhir/models/__init__.py:61-66 | insert succeeds and fails exactly as append does, with the same error, and on success is Python's positional insert |
| ObjectModel.AppendAll | api_fhir/models/__init__.py:87-88 | appending item by item keeps a prefix of the items, all of them exactly when nothing raised, and stops at the first item append refuses; a list within its maximum stays within it |
| ObjectModel.GetProperty | api_fhir/models/__init__.py:75-80 | a stored value is read back; an unset list-valued property reads as an empty list and an unset scalar as `None` |
| ObjectModel.Materialize | api_fhir/models/__init__.py:78-79 | the getter's `setdefault` does not change what any property reads and adds at most an empty list under the property's name |
| ObjectModel.SetProperty | api_fhir/models/__init__.py:82-96 | only the property's own entry changes; a list property takes only a list, ends up holding a prefix of it, and holds all of it exactly when nothing raised; a scalar property refuses a list and stores a value exactly when it validates |
| ObjectModel.SetPropertyKeepsInvariant | api_fhir/models/__init__.py:82-96 | setting a declared property keeps every stored value conforming to its cardinality, even when the setter raises |
| ObjectModel.SetListReplaces | api_fhir/models/__init__.py:83-88 | assigning a list of valid items that fits replaces the old contents with exactly those items |
| ObjectModel.AppendAllAccepts | api_fhir/models/__init__.py:87-88 | valid items that fit are all appended, with no error |
| ObjectModel.SetListOverflow | api_fhir/models/__init__.py:56-88 | assigning one item more than the maximum keeps the first `count_max` items and raises `PropertyMaxSizeError`; the old contents are gone |
| ObjectModel.AppendAllSplit | api_fhir/models/__init__.py:87-88 | appending two runs of items is appending the first run and then the second, when the first raises nothing |
| FhirObjects.FhirObject.constructor | api_fhir/models/__init__.py:100-102 | a fresh instance has no property and no private attribute set, and keeps the cardinality invariant |
| FhirObjects.FhirObject.Get | api_fhir/models/__init__.py:75-80 | reading a declared property returns what the getter yields and stores an empty list for an unset list property; an undeclared name reads a private attribute or raises `AttributeError` |
| FhirObjects.FhirObject.SetAttr | api_fhir/models/__init__.py:108-111 | a declared property is set through the descriptor; an undeclared name starting with `_` becomes a private attribute; any other name raises `InvalidAttributeError` naming the attribute and the class, and nothing changes |
| FhirObjects.FhirObject.SetDeclared | api_fhir/models/__init__.py:82-96 | the object's values become exactly what the descriptor's setter leaves, with its error, and the invariant holds |
| FhirObjects.FhirObject.Refill | api_fhir/models/__init__.py:85-88 | the loop of the list setter leaves exactly the items append accepted before the first refusal, and that refusal |
| FhirObjects.FhirObject.FromDict | api_fhir/models/__init__.py:164-192 | reading a dictionary assigns every entry but the discriminator, in order, converted after its property's type; it stops at the first error and otherwise leaves the values the entries describe |
| FhirObjects.FhirObject.Append | api_fhir/models/__init__.py:54-80 | appending to a list property stores the list append produces, or raises its error leaving only the getter's empty list behind |
| FhirObjects.FhirObject.Insert | api_fhir/models/__init__.py:61-80 | inserting into a list property stores the list insert produces, or raises its error leaving only the getter's empty list behind |
| FhirObjects.FhirObject.ToDict | api_fhir/models/__init__.py:204-229 | the dictionary produced is the sparse serialisation of the object, and each unset list property is left holding an empty list |
| FhirObjects.Create | api_fhir/models/__init__.py:100-106 | the corrected constructor assigns the keyword arguments in order through `__setattr__`, stopping at the first exception, and the instance keeps the invariant |
| FhirObjects.PreStoreCheck | api_fhir/models/__init__.py:82-95 | the checks the setter makes before it touches `_values` fail exactly when the shape is wrong (a non-list for a list-valued property, a list for a scalar one) or a scalar's type check fails, and then raise the same error as the full setter |
| FhirObjects.InitAsWritten | api_fhir/models/__init__.py:81-111 | the constructor as written succeeds exactly when every keyword argument is an undeclared private name; the first declared one always fails: with the setter's shape or type error when that check fails, otherwise with `AttributeError('_values')` |
| FhirObjects.InitAsWrittenRejectsEveryProperty | api_fhir/models/__init__.py:100-106 | as written, a single valid declared property makes the constructor raise `AttributeError('_values')`, while the corrected constructor stores it |
| FhirObjects.InitKeepsInvariant | api_fhir/models/__init__.py:104-111 | the corrected constructor keeps the cardinality invariant whatever keyword arguments it is given |
| Serialization.PropEntry | api_fhir/models/__init__.py:210-228 | each property contributes at most one entry to the dictionary |
| Serialization.Emit | api_fhir/models/__init__.py:213-228 | whatever `toDict` writes for a value is truthy: empty nested objects, empty lists and falsy scalars are left out |
| Serialization.PropEntriesKeys | api_fhir/models/__init__.py:210-228 | the property part of the dictionary writes only set, declared properties, each with a truthy value |
| Serialization.PropEntriesSorted | api_fhir/models/__init__.py:116-210 | over properties in `dir()` order the written keys strictly increase |
| Serialization.ToDictHeader | api_fhir/models/__init__.py:204-208 | a resource's dictionary starts with its `resourceType`; anything else has no header |
| Serialization.ToDictKeys | api_fhir/models/__init__.py:210-228 | after the header, every key is a declared property that is set, with a truthy value |
| Serialization.ToDictSorted | api_fhir/models/__init__.py:116-210 | after the header, the keys come in strictly increasing (alphabetical) order |
| Serialization.EmptyPropEntries | api_fhir/models/__init__.py:204-229 | an object with nothing set writes nothing but, for a resource, its `resourceType` |
| Serialization.KeyIndex | api_fhir/models/__init__.py:147-170 | `pop` finds the first entry with the key, and fails only when no entry has it |
| Serialization.Coerce | api_fhir/models/__init__.py:188 | a built-in property type converts a JSON string to `str`, a number to `int`, and any value to `bool` by truthiness; `int` of a string succeeds exactly when the string parses, and `int` of `None` is a type error |
| Serialization.Build | api_fhir/models/__init__.py:164-192 | a successfully filled instance is an object of the class asked for |
| Serialization.ConvertEntry | api_fhir/models/__init__.py:165-190 | an entry is assigned through the property its key names; a key naming no property raises `AttributeError` |
| Serialization.NestedResource | api_fhir/models/__init__.py:169-172 | a nested resource is built as the class its own `resourceType` names, which must exist in the namespace |
| Serialization.ConvertItems | api_fhir/models/__init__.py:177-184 | a list of nested objects converts element by element, keeping the length |
| Serialization.FromDict | api_fhir/models/__init__.py:156-162 | a missing `resourceType` raises `KeyError`; a result is an object of the class the dictionary names, which is in the namespace |
| Serialization.FromJson | api_fhir/models/__init__.py:144-154 | the result is an instance of the requested class or a subclass; a `resourceType` naming a class that is not a subclass raises the `FHIRException` "Cannot marshall ..." |
| Serialization.Loads | api_fhir/models/__init__.py:135-142 | only the `json` format is read; any other raises `UnsupportedFormatError` |
| Serialization.Dumps | api_fhir/models/__init__.py:194-199 | only the `json` format is written, as the object's dictionary; any other raises `UnsupportedFormatError` |
| RoundTrip.SkipOf | api_fhir/models/__init__.py:158-208 | the entry skipped when reading back is exactly the header `toDict` wrote: index 0 for a resource, none otherwise |
| RoundTrip.RoundTripObj | api_fhir/models/__init__.py:164-229 | a canonical object's dictionary is read back into the same object |
| RoundTrip.RoundTripFrom | api_fhir/models/__init__.py:165-190 | reading the dictionary from any property's entries on finishes with exactly the object's fields |
| RoundTrip.RoundTripStep | api_fhir/models/__init__.py:165-228 | reading one property's entry, if one was written, restores that property's field and nothing else |
| RoundTrip.StepSet | api_fhir/models/__init__.py:165-228 | for a set property, reading its entry assigns its own value and moves to the next entry |
| RoundTrip.ReadBack | api_fhir/models/__init__.py:165-190 | an entry that converts to a value the setter accepts is assigned and reading moves on |
| RoundTrip.EntryAtSet | api_fhir/models/__init__.py:210-228 | the entry written for a set property sits at that property's place in the dictionary, and is not the header |
| RoundTrip.EntryAtUnset | api_fhir/models/__init__.py:210-228 | an unset property writes no entry |
| RoundTrip.SetCanonical | api_fhir/models/__init__.py:82-96 | assigning a canonical value through its setter stores it and raises nothing |
| RoundTrip.RoundTripField | api_fhir/models/__init__.py:169-228 | a canonical value is written by `toDict` and converted back into itself by `_fromDict` |
| RoundTrip.RoundTripItems | api_fhir/models/__init__.py:177-225 | a written list of nested objects is rebuilt in order as those objects |
| RoundTrip.FromDictOfToDict | api_fhir/models/__init__.py:156-229 | `fromDict(toDict(obj))` gives back a canonical resource |
| RoundTrip.LoadsOfDumps | api_fhir/models/__init__.py:135-202 | `cls.loads(obj.dumps())` gives back a canonical resource of `cls` or a subclass |
| Configuration.CopyKeysComplete | api_fhir/configurations/generalConfiguration.py:7-16 | when every key is present, building the configuration sets exactly those keys to the configured values |
| Configuration.CopyKeysStops | api_fhir/configurations/generalConfiguration.py:7-16 | a missing key is reported (the first one missing) and only the keys before it have been stored |
| Configuration.Get | api_fhir/configurations/stu3ClaimConfig.py:12 | `dict.get`: the configured code when the key is present, the default otherwise |
| Configuration.Config.constructor | api_fhir/configurations/generalConfiguration.py:8 | the configuration object starts with no attribute set |
| Configuration.Config.BuildGeneral | api_fhir/configurations/generalConfiguration.py:7-16 | the eight general keys are copied in order; a missing one raises `KeyError` with the earlier ones stored |
| Configuration.Config.BuildOne | api_fhir/configurations/stu3ClaimConfig.py:7-8 | one key is copied, or `KeyError` is raised and nothing changes |
| Configuration.Config.BuildStu3Claim | api_fhir/configurations/stu3ClaimConfig.py:7-8 | the STU3 claim table is copied, or `KeyError` is raised and nothing changes |
| Configuration.Config.BuildR4Location | api_fhir_R4/configurations/R4LocationConfig.py:7-8 | the R4 location role-type table is copied, or `KeyError` is raised and nothing changes |
| Configuration.Config.Attr | api_fhir/configurations/generalConfiguration.py:18-56 | a plain getter returns the stored setting and raises `AttributeError` when the configuration was never built |
| Configuration.Config.CodeOr | api_fhir/configurations/stu3ClaimConfig.py:10-44 | a code getter reads its table: the configured code when present, the literal default otherwise |
| Configuration.GenderDefaults | api_fhir/configurations/generalConfiguration.py:30-40 | with no gender codes configured the getters give "M", "F" and "O" |
| Configuration.ClaimDefaults | api_fhir/configurations/stu3ClaimConfig.py:10-44 | with nothing configured the STU3 claim getters give their literals, and the five status codes are pairwise distinct |
| Configuration.LocationDefaults | api_fhir_R4/configurations/R4LocationConfig.py:10-25 | with nothing configured the R4 location getters give the role-type URL and the distinct codes "HOSP", "CSC" and "PC" |
| Configuration.ConfiguredOverrides | api_fhir/configurations/stu3ClaimConfig.py:10-44 | a configured key wins over any default |
| BaseConverter.ValidCondition | api_fhir/converters/patientConverter.py:70-78 | the condition comes back unchanged; the message is appended to the error list exactly when the condition holds, otherwise the list is untouched |
| BaseConverter.CheckErrors | api_fhir/converters/patientConverter.py:48-49 | the converted object is returned if and only if no error was recorded; otherwise a FHIR request-process exception carrying exactly the recorded messages |
| BaseConverter.CheckErrorsReportsAll | api_fhir/exceptions/__init__.py:9-13 | every recorded error appears verbatim inside the message of the exception raised by a failed conversion |
| BaseConverter.FirstCoding | api_fhir/tests/mixin/patientTestMixin.py:116 | a coding is found if and only if the concept has a non-empty coding list, and it is that list's first element |
| BaseConverter.BuildCodeableConcept | api_fhir/converters/patientConverter.py:128-129 | the concept has exactly one coding, which reads back as the given code and system, and keeps the given text |
| BaseConverter.BuildSimpleCodeableConcept | api_fhir/converters/operationOutcomeConverter.py:26 | the concept holds the text and no coding can be read from it |
| BaseConverter.TypeCoding | api_fhir/tests/test_patientConverter.py:88 | an identifier's type coding exists if and only if the identifier has a type with a first coding, and it is that coding |
| BaseConverter.BuildIdentifier | api_fhir/converters/patientConverter.py:124-131 | the identifier is of usual use, carries the value, and its type coding reads back as the given system and code |
| BaseConverter.IdentifierByCode | api_fhir_R4/converters/medicationConverter.py:45 | when no identifier carries the type code, nothing is found |
| BaseConverter.IdentifierByCodeFirst | api_fhir_R4/converters/medicationConverter.py:45 | when the identifier at position i is the first carrying the type code, its value is the one found |
| BaseConverter.AppendKeyIdentifier | api_fhir/converters/patientConverter.py:101-106 | a record with a key gets exactly one more identifier, built from that key with the given type; without a key the list is unchanged |
| BaseConverter.BuildReference | api_fhir/converters/claimConverter.py:16-18 | the reference text is the resource type, a slash and the id |
| BaseConverter.ResourceId | api_fhir/converters/practitionerRoleConverter.py:44 | an id read from a reference is non-empty and holds no slash |
| BaseConverter.ResourceIdOfBuildReference | api_fhir/tests/mixin/claimResponseTestMixin.py:54-66 | reading the id back from a built reference gives the id it was built from |
| BaseConverter.FindByReference | api_fhir/converters/practitionerRoleConverter.py:41-48 | a record is found if and only if the reference names an id and a stored record has that id, and the record found is that one |
| BaseConverter.FindByBuiltReference | api_fhir/tests/test_api_practitionerRole.py:24-31 | a reference built from a stored record finds that record, and finds nothing when the record is not stored |
| BaseConverter.BuildContactPoint | api_fhir/converters/patientConverter.py:215-217 | the contact point carries the given value, system and use |
| BaseConverter.Last | api_fhir/converters/patientConverter.py:224-231 | what a loop that overwrites a field for every match leaves: a matching element with no match after it, or nothing when no element matches |
| BaseConverter.LastSnoc | api_fhir/converters/patientConverter.py:224-231 | one more element wins if it matches, otherwise the earlier winner stays |
| BaseConverter.First | api_fhir/converters/practitionerRoleConverter.py:67-69 | what a search that stops at the first hit finds: a matching element with no match before it, or nothing when no element matches |
| BaseConverter.FirstAt | api_fhir/converters/patientConverter.py:71-76 | the element at position i, when it matches and nothing before it does, is the one found |
| ClaimConverter.CodeIdentifier | api_fhir/converters/claimConverter.py:50-52 | the claim-code identifier is typed with the identifier-type system and the claim-code type and carries the claim's code, even when that code is missing |
| ClaimConverter.BuildFhirIdentifiers | api_fhir/converters/claimConverter.py:46-54 | the identifiers are the database-id identifier, when the claim has an id, followed by the claim-code identifier |
| ClaimConverter.BuildImisIdentifier | api_fhir/converters/claimConverter.py:56-71 | the loop leaves in the code the value of the last identifier whose first type coding has the claim system and claim-code type and whose value is non-empty; a claim still without a code gets its message |
| ClaimConverter.IdentifiersRoundTrip | api_fhir/converters/claimConverter.py:46-71 | decoding the encoded identifiers gives back a non-empty claim code, whether or not a database-id identifier precedes it |
| ClaimConverter.Resolve | api_fhir/converters/claimConverter.py:73-83 | only a present reference is looked up, and then exactly as the base lookup does |
| ClaimConverter.ReferenceRoundTrip | api_fhir/converters/claimConverter.py:16-18 | the reference the encoder writes for a stored record resolves back to that record's key |
| ClaimConverter.DateClaimedDecoded | api_fhir/converters/claimConverter.py:40-44 | a non-empty creation date becomes the claim date; a claim left without a date gets exactly its message |
| ClaimConverter.FacilityDecoded | api_fhir/converters/claimConverter.py:79-83 | a present facility reference sets the facility to the record it finds, possibly none; a claim left without a facility gets exactly its message |
| ClaimConverter.PatientDecoded | api_fhir/converters/claimConverter.py:73-77 | a present patient reference sets the insuree to the record it finds, possibly none; a claim left without an insuree gets exactly its message |
| ClaimConverter.AdminDecoded | api_fhir/converters/claimConverter.py:185-189 | a present enterer reference sets the claim administrator to the record it finds, possibly none; a claim left without one gets exactly its message |
| ClaimConverter.BillablePeriod | api_fhir/converters/claimConverter.py:85-92 | the period is always written; its start and end are the claim's dates when those are non-empty and unset otherwise |
| ClaimConverter.DateRangeDecoded | api_fhir/converters/claimConverter.py:94-102 | non-empty start and end dates are taken from a present period; only a missing start date is reported |
| ClaimConverter.BillablePeriodRoundTrip | api_fhir/converters/claimConverter.py:85-102 | decoding the encoded period gives both non-empty dates back, and a message exactly when the claim had no start date |
| ClaimConverter.Total | api_fhir/converters/claimConverter.py:168-175 | the total always has an amount: the claimed amount, or 0 when there is none |
| ClaimConverter.TotalDecoded | api_fhir/converters/claimConverter.py:177-183 | a present total sets the claimed amount to its value; a claim left without an amount gets exactly its message |
| ClaimConverter.TotalRoundTrip | api_fhir/converters/claimConverter.py:168-183 | decoding the encoded total gives the claimed amount back (0 for a missing one) and never records a message |
| ClaimConverter.BuildFhirDiagnosis | api_fhir/converters/claimConverter.py:118-124 | exactly one diagnosis is appended, numbered one past the current length |
| ClaimConverter.AddIfNumbered | api_fhir/converters/claimConverter.py:108-124 | adding a diagnosis for a slot keeps every entry numbered by its 1-based position |
| ClaimConverter.DiagnosesShape | api_fhir/converters/claimConverter.py:104-116 | the main diagnosis comes first, entries are numbered 1, 2, ... by position, and there is one entry per non-empty secondary slot |
| ClaimConverter.BuildFhirDiagnoses | api_fhir/converters/claimConverter.py:104-116 | a claim without a main diagnosis fails reading its code; otherwise the diagnoses are those of the claim's slots |
| ClaimConverter.EncodedDiagnosisTypeUnreadable | api_fhir/converters/claimConverter.py:145-151 | the type reader as written fails on every diagnosis the encoder produces, because it reads a text off a list |
| ClaimConverter.DiagnosisType | api_fhir/converters/claimConverter.py:145-151 | a diagnosis without type concepts has no type (corrected, Findings row 2) |
| ClaimConverter.EncodedDiagnosisType | api_fhir/converters/claimConverter.py:118-151 | the corrected type reader gives back the type text the encoder wrote |
| ClaimConverter.DiagnosisCode | api_fhir/converters/claimConverter.py:153-166 | a code found is a stored diagnosis code; the lookup fails as not existing exactly when a non-empty coded code is unknown |
| ClaimConverter.SetSlot | api_fhir/converters/claimConverter.py:133-142 | with distinct slot texts, each type text stores the code in its own slot and leaves the other four untouched |
| ClaimConverter.DiagnosesDecodedSlot | api_fhir/converters/claimConverter.py:126-142 | the slot named by a type ends up with the code of the last diagnosis of that type, or keeps its old value when there is none |
| ClaimConverter.DiagnosesDecodedSucceeds | api_fhir/converters/claimConverter.py:126-166 | the diagnoses loop fails only on a diagnosis whose code concept has no coding or names an unknown code |
| ClaimConverter.BuildImisDiagnoses | api_fhir/converters/claimConverter.py:126-143 | a lookup failure aborts the conversion; otherwise the slots are filled as the loop says and a missing main diagnosis gets exactly its message |
| ClaimConverter.DiagnosesFailureStays | api_fhir/converters/claimConverter.py:129-142 | once a diagnosis aborts the loop, the later entries do not matter |
| ClaimConverter.LastAddIf | api_fhir/converters/claimConverter.py:108-115 | among the encoded entries, the one added for a slot is the last of its type |
| ClaimConverter.DiagnosesLast | api_fhir/converters/claimConverter.py:104-116 | in the encoded list, the last entry of a slot's type is the one built from that slot |
| ClaimConverter.DiagnosesRoundTrip | api_fhir/converters/claimConverter.py:104-166 | decoding the encoded diagnoses succeeds when their codes are stored, restores the main and every non-empty secondary slot, and leaves empty slots as they were |
| ClaimConverter.DiagnosesCodesKnown | api_fhir/converters/claimConverter.py:153-166 | every encoded diagnosis names one of the claim's stored codes, so its lookup succeeds |
| ClaimConverter.ToFhir | api_fhir/converters/claimConverter.py:12-23 | a claim without a date fails, then one without a main diagnosis fails; any other claim is encoded with every element the builders describe |
| ClaimConverter.ToImis | api_fhir/converters/claimConverter.py:25-38 | all eight builders run before the messages are checked, so the failure lists every missing field; an aborted diagnosis lookup fails first (corrected, Findings row 2) |
| ClaimConverter.EveryMissingFieldReported | api_fhir/converters/claimConverter.py:25-38 | an empty FHIR claim is reported with all eight messages at once, in builder order |
| ClaimConverter.DiagnosesDecodedFrame | api_fhir/converters/claimConverter.py:126-142 | the diagnoses loop changes the five diagnosis slots and nothing else |
| ClaimConverter.HeadRoundTrip | api_fhir/converters/claimConverter.py:25-102 | the builders before the diagnoses restore date, facility, code, patient and dates of an encoded claim with no message |
| ClaimConverter.DiagnosesAllSlots | api_fhir/converters/claimConverter.py:104-166 | the encoded diagnoses fill all five slots at once: main and non-empty secondaries restored, empty ones kept |
| ClaimConverter.ClaimRoundTrip | api_fhir/converters/claimConverter.py:12-38 | decoding a claim's encoding, with every referenced record and diagnosis code stored, succeeds with no message and restores every field written, the database id aside (corrected, Findings row 2) |
| ClaimResponseConverter.StatusDisplay | api_fhir_R4/converters/claimResponseConverter.py:43-57 | a display exists exactly for the five known statuses (1, 2, 4, 8, 16) and is one of the five configured names |
| ClaimResponseConverter.StatusOfDisplay | api_fhir_R4/converters/claimResponseConverter.py:43-57 | a display names, if anything, one of the known statuses |
| ClaimResponseConverter.StatusDisplayInverse | api_fhir_R4/converters/claimResponseConverter.py:43-57 | with distinct configured names, status and display determine each other both ways |
| ClaimResponseConverter.OutcomeStatus | api_fhir/converters/claimResponseConverter.py:17-32 | a missing outcome reports no status |
| ClaimResponseConverter.Outcome | api_fhir/converters/claimResponseConverter.py:17-32 | the outcome reads back as the status it was built from, and its text is that status's display |
| ClaimResponseConverter.BuildFhirOutcomeStu3 | api_fhir/converters/claimResponseConverter.py:17-32 | an outcome is written exactly when the claim has a status; it reads back as that status and its text is the status's display (the code is the status as decimal text; see "## Left out") |
| ClaimResponseConverter.ToFhirStu3 | api_fhir/converters/claimResponseConverter.py:9-15 | the response's id is the claim code, its creation time the current time, and its outcome reports the claim's status with that status's display |
| ClaimResponseConverter.Stu3OutcomeTextNamesStatus | api_fhir/converters/claimResponseConverter.py:17-32 | with distinct configured names, the outcome text alone identifies a known status |
| ClaimResponseConverter.BuildFhirOutcomeR4 | api_fhir_R4/converters/claimResponseConverter.py:36-41 | an outcome is written exactly when the claim has a status; it reads back as that status and its text is the status's display |
| ClaimResponseConverter.ErrorReason | api_fhir_R4/converters/claimResponseConverter.py:76-82 | an empty error list reports no rejection reason (0) |
| ClaimResponseConverter.BuildFhirErrors | api_fhir_R4/converters/claimResponseConverter.py:76-82 | one error exactly when the rejection reason is non-zero, and the error list reads back as that reason |
| ClaimResponseConverter.CheckItemCategories | api_fhir_R4/converters/claimResponseConverter.py:99-113 | no error if and only if every item is of the item or the service category; otherwise the error names an item whose category is neither |
| ClaimResponseConverter.BuildTotal | api_fhir_R4/converters/claimResponseConverter.py:268-281 | the total carries the claim's amount; it has a category exactly when the amount is present, and then also the currency and that category name |
| ClaimResponseConverter.ClaimTotals | api_fhir_R4/converters/claimResponseConverter.py:206-210 | four totals carrying the valuated, reinsured, approved and claimed amounts, in that order |
| ClaimResponseConverter.Present | api_fhir_R4/converters/claimResponseConverter.py:206-266 | the kept totals are no more than the given ones and each has an amount |
| ClaimResponseConverter.PresentMembers | api_fhir_R4/converters/claimResponseConverter.py:206-266 | a total is kept if and only if it is one of the given totals and has an amount |
| ClaimResponseConverter.PresentCons | api_fhir_R4/converters/claimResponseConverter.py:206-266 | a total with an amount is kept in front of the rest, and one without an amount is dropped |
| ClaimResponseConverter.PresentFour | api_fhir_R4/converters/claimResponseConverter.py:206-266 | for four totals, the kept list is spelled out pattern by pattern |
| ClaimResponseConverter.TotalsAsWrittenAgrees | api_fhir_R4/converters/claimResponseConverter.py:206-266 | on fourteen of the sixteen presence patterns the written chain lists exactly the present totals, in order |
| ClaimResponseConverter.TotalsAsWrittenKeepsEmpty | api_fhir_R4/converters/claimResponseConverter.py:263-266 | on the two remaining patterns the chain lists all four totals, including one with no amount, which differs from the present totals |
| ClaimResponseConverter.TotalsAsWrittenCounterexample | api_fhir_R4/converters/claimResponseConverter.py:206-266 | with every amount but the reinsured one, the written chain emits an empty reinsured total |
| ClaimResponseConverter.BuildFhirTotal | api_fhir_R4/converters/claimResponseConverter.py:206-266 | the response lists the present totals in the order valuated, reinsured, approved, claimed (corrected, Findings row 4) |
| ClaimResponseConverter.TotalsReportAmounts | api_fhir_R4/converters/claimResponseConverter.py:206-329 | there is one total per amount the claim has, each carrying one of the claim's amounts, and the total for each present amount is listed |
| ClaimResponseConverter.BuildProcessNote | api_fhir_R4/converters/claimResponseConverter.py:190-200 | a non-empty justification appends exactly one note with the next number and returns it; otherwise nothing changes; notes stay numbered 1, 2, 3, ... |
| ClaimResponseConverter.AdjudicationReason | api_fhir_R4/converters/claimResponseConverter.py:180-188 | the reason reads back as the item's status, and has a text exactly for status 1 or 2, one of the configured passed and rejected codes |
| ClaimResponseConverter.AdjudicationReasonText | api_fhir_R4/converters/claimResponseConverter.py:180-188 | with distinct configured codes, the text says "passed" exactly for status 1 and "rejected" exactly for status 2 |
| ClaimResponseConverter.ToFhirR4 | api_fhir_R4/converters/claimResponseConverter.py:17-33 | the conversion fails if and only if an item has an unknown category; otherwise the response carries the claim's uuid as id, the claim's identifiers, the creation date, the outcome, the rejection error, the present totals and the references (corrected, Findings row 4) |
| FhirTypes.Field.Get | api_fhir/converters/patientConverter.py:74 | `get` on a dictionary yields a value exactly when the key is present with a value other than `None` |
| FhirTypes.Assigned | api_fhir/models/__init__.py:91-96 | an assigned scalar is a present key whose `get` gives back the assigned value, `None` included |
| FhirTypes.NameProperties | api_fhir/models/__init__.py:81-96 | the dictionary of a name's properties has the keys `use`, `family` and `given`, each giving back the assigned value |
| FhirTypes.NameAttributes | api_fhir/models/__init__.py:99-111 | an object's `__dict__` holds none of the property names as keys, the properties being kept under `_values` |
| ConverterInsuree.EncodedNames | api_fhir/serializers/patientSerializer.py:27-34 | corrected: exactly one usual name dictionary, whose family key holds the last name and whose given list is the other names alone (corrected, Findings row 11) |
| ConverterInsuree.EncodedNamesAsWritten | api_fhir/serializers/patientSerializer.py:27-34 | as written, the one name in the list is a `__dict__` without a `use` key |
| ConverterInsuree.TypedIdentifier | api_fhir/serializers/patientSerializer.py:49-56 | a usual identifier carrying the value, typed by a concept whose system and code are both the placeholder |
| ConverterInsuree.EncodedIdentifiers | api_fhir/serializers/patientSerializer.py:45-78 | always three identifiers, carrying the key, the CHF id and the passport in that order, present or not |
| ConverterInsuree.BuildFhirIdentifiers | api_fhir/serializers/patientSerializer.py:45-78 | the list the method appends to ends up as the three encoded identifiers |
| ConverterInsuree.Encoded | api_fhir/serializers/patientSerializer.py:10-15 | the Patient has a name list and exactly three identifiers |
| ConverterInsuree.NamesDecoded | api_fhir/serializers/patientSerializer.py:36-43 | a Patient without a name key raises KeyError, one whose name list is `None` raises TypeError; success changes only the last and other names; when every name has a `use` and none is usual the insuree is unchanged |
| ConverterInsuree.TakeName | api_fhir/serializers/patientSerializer.py:40-42 | reading the usual name succeeds exactly when it has a `family` key and a non-empty given list, and then takes the family and the first given name |
| ConverterInsuree.BuildImisNames | api_fhir/serializers/patientSerializer.py:36-43 | the loop that breaks at the first usual name, or raises at a name without a `use` key, has the outcome the name decoding describes |
| ConverterInsuree.FirstSkip | api_fhir/serializers/patientSerializer.py:39-43 | skipping a name with a `use` other than usual leaves the place where the search stops unchanged |
| ConverterInsuree.BuildImisIdentifiers | api_fhir/serializers/patientSerializer.py:80-84 | a missing identifier key raises KeyError, a `None` list TypeError; otherwise the insuree is unchanged |
| ConverterInsuree.Decoded | api_fhir/serializers/patientSerializer.py:17-25 | a decoded insuree is new, with audit user 1, no key and no CHF id |
| ConverterInsuree.InsureeRoundTrip | api_fhir/serializers/patientSerializer.py:10-43 | decoding an encoded insuree gives its last and other names back on a new insuree; key, CHF id and passport are not read back (corrected, Findings row 11) |
| ConverterInsuree.InsureeAsWrittenNotReadBack | api_fhir/serializers/patientSerializer.py:10-43 | as written, decoding any encoded insuree raises KeyError('use') |
| ConverterInsuree.EmptyGivenFails | api_fhir/serializers/patientSerializer.py:39-43 | a first usual name, with a family key and an empty given list, makes decoding raise an index error |
| LocationConverter.DefaultHealthFacility | api_fhir/converters/locationConverter.py:33-42 | a new facility gets the configured offline flag and care type and the caller's audit user, and has no code, name or level yet |
| LocationConverter.Identifiers | api_fhir/converters/locationConverter.py:44-57 | one identifier more when the facility has an id; the last identifier carries the facility code under the facility-id type |
| LocationConverter.HfCodeDecoded | api_fhir/converters/locationConverter.py:59-70 | decoding fails with an index error exactly when some identifier's type has an empty coding list; otherwise only the code may change, and only to the value of a facility-code identifier |
| LocationConverter.IdentifierStage | api_fhir/converters/locationConverter.py:59-71 | after the identifiers are read, a facility without a code gets exactly the missing-code message |
| LocationConverter.BuildImisHfIdentifier | api_fhir/converters/locationConverter.py:59-71 | the loop and the missing-code check together behave as the identifier stage |
| LocationConverter.ScanHfIdentifiers | api_fhir/converters/locationConverter.py:61-70 | the loop over a list of identifiers has the outcome the code decoding describes |
| LocationConverter.IdentifiersRoundTrip | api_fhir/converters/locationConverter.py:44-71 | decoding the encoded identifiers gives the facility code back to any facility being decoded |
| LocationConverter.NameDecoded | api_fhir/converters/locationConverter.py:77-81 | only the name may change: a present name is taken, a missing one gets its message and leaves the facility unchanged |
| LocationConverter.LevelCode | api_fhir/converters/locationConverter.py:83-94 | the type code is one of the three configured level codes, or empty for any other level |
| LocationConverter.LevelOfCode | api_fhir/converters/locationConverter.py:100-108 | a code names, if anything, one of the three database levels |
| LocationConverter.LevelRoundTrip | api_fhir/converters/locationConverter.py:83-108 | with a distinct, non-empty level table, a known level survives encoding and decoding and any other level decodes to nothing |
| LocationConverter.DecodeLevel | api_fhir/converters/locationConverter.py:100-108 | the loop over the codings leaves the level of the last level coding, or the old level when there is none |
| LocationConverter.LastLevelOfEncoded | api_fhir/converters/locationConverter.py:83-108 | a single coding of a known level's code decodes to that level, and one of the empty code to the old level |
| LocationConverter.LevelDecoded | api_fhir/converters/locationConverter.py:96-110 | a missing type is reported; a type without a coding list raises; otherwise the last level coding sets the level and a missing level is reported |
| LocationConverter.BuildImisHfLevel | api_fhir/converters/locationConverter.py:96-110 | the loop the source runs has the outcome the level decoding describes |
| LocationConverter.EncodedType | api_fhir/converters/locationConverter.py:83-94 | the type has one coding, with the role-type system and the level's code |
| LocationConverter.LevelStageRoundTrip | api_fhir/converters/locationConverter.py:83-110 | decoding the encoded type restores a known level with no message; an unknown level stays missing and is reported |
| LocationConverter.EncodedAddress | api_fhir/converters/locationConverter.py:112-115 | the address carries the facility's address text and is physical |
| LocationConverter.AddressDecoded | api_fhir/converters/locationConverter.py:117-122 | only the address may change, and only from a physical address |
| LocationConverter.Telecom | api_fhir/converters/locationConverter.py:124-139 | one contact point per contact the facility has, none for a missing one |
| LocationConverter.BuildFhirTelecom | api_fhir/converters/locationConverter.py:124-139 | the list the method appends to is the phone, fax and e-mail contact points, each only when present |
| LocationConverter.ContactsDecoded | api_fhir/converters/locationConverter.py:141-150 | only the contacts may change |
| LocationConverter.BuildImisContacts | api_fhir/converters/locationConverter.py:141-150 | the loop leaves, per system, the value of the last contact point of that system |
| LocationConverter.LastContactAppend | api_fhir/converters/locationConverter.py:141-150 | appending at most one contact point: it wins for its own system and the earlier list decides the others |
| LocationConverter.TelecomSystem | api_fhir/converters/locationConverter.py:124-150 | the encoded telecom list gives each system the facility's own contact of that system, if it has one |
| LocationConverter.TelecomRoundTrip | api_fhir/converters/locationConverter.py:124-150 | decoding the encoded telecom list restores each contact the facility has and keeps the others |
| LocationConverter.ToFhir | api_fhir/converters/locationConverter.py:11-19 | every builder runs: at most three contact points, and one or two identifiers according to whether the facility has an id |
| LocationConverter.ToImis | api_fhir/converters/locationConverter.py:21-31 | an exception of a builder propagates; otherwise the facility is returned exactly when no message was recorded |
| LocationConverter.EmptyLocationReportsAll | api_fhir/converters/locationConverter.py:21-31 | a location with no fields reports the missing code, name and type together |
| LocationConverter.LocationRoundTrip | api_fhir/converters/locationConverter.py:11-150 | decoding an encoded facility with a code, a name and a known level gives back code, name, level, address and contacts on a new facility with no message |
| LocationConverterR4.DefaultHealthFacilityAsWritten | api_fhir_R4/converters/locationConverter.py:56-65 | a new facility gets the configured offline flag and care type and the caller's audit user, and has no code, name, level or location record |
| LocationConverterR4.DefaultHealthFacility | api_fhir_R4/converters/locationConverter.py:56-65 | the corrected new facility is the one written with an empty location record added for the decoder to fill |
| LocationConverterR4.JoinPair | api_fhir_R4/converters/locationConverter.py:17 | joining with ", " succeeds exactly when both operands are present, failing on the left one first, and the result is the first text followed by ", " and the second |
| LocationConverterR4.Pk | api_fhir_R4/converters/locationConverter.py:17 | the resource id can be built exactly when the facility, its location record and that record all have a uuid; a facility without a record fails reading its location record, as every other stage does |
| LocationConverterR4.NameSplitRoundTrip | api_fhir_R4/converters/locationConverter.py:101-121 | splitting the joined name on commas gives the two names back, the second after its leading blank is stripped, when neither holds a comma |
| LocationConverterR4.CodeIdentifier | api_fhir_R4/converters/locationConverter.py:76-82 | the identifier carries the code, even a missing one, under the facility-id type |
| LocationConverterR4.UuidIdentifier | api_fhir_R4/converters/locationConverter.py:70 | one uuid-typed identifier when the record has a uuid, none otherwise |
| LocationConverterR4.BuildFhirIdentifiers | api_fhir_R4/converters/locationConverter.py:67-74 | the identifiers are facility uuid, facility code, record uuid and record code: two codes plus one per uuid present |
| LocationConverterR4.IdentifiersFindFacilityCode | api_fhir_R4/converters/locationConverter.py:67-90 | looking up the facility-id type in the encoded identifiers finds the facility's code, never the record's |
| LocationConverterR4.LevelText | api_fhir_R4/converters/locationConverter.py:123-135 | the level text is empty exactly for a level that is not one of the three known ones |
| LocationConverterR4.EncodedType | api_fhir_R4/converters/locationConverter.py:123-138 | the type is a one-element list whose concept has one coding, the role-type system with the level's code, and the level text |
| LocationConverterR4.LevelDecodedAsWritten | api_fhir_R4/converters/locationConverter.py:140-145 | the level stage as written always fails, reading a coding list off the type list |
| LocationConverterR4.AllCodings | api_fhir_R4/converters/locationConverter.py:140-155 | for a one-element type list, the codings are those of its only concept |
| LocationConverterR4.LevelDecoded | api_fhir_R4/converters/locationConverter.py:140-155 | an empty type list is reported as missing; otherwise only the level may change, it changes only to a known level, and a missing level is reported |
| LocationConverterR4.BuildImisHfLevel | api_fhir_R4/converters/locationConverter.py:140-155 | the loop over the collected codings has the outcome the corrected level stage describes |
| LocationConverterR4.LevelStageRoundTrip | api_fhir_R4/converters/locationConverter.py:123-155 | decoding the encoded type restores a known level with no message; an unknown level is reported as missing |
| LocationConverterR4.PhysicalCode | api_fhir_R4/converters/locationConverter.py:198-213 | the physical-type code is one of the four configured codes, or empty for any other kind |
| LocationConverterR4.PhysicalText | api_fhir_R4/converters/locationConverter.py:198-213 | the physical-type text is empty exactly for a kind that is not one of the four known ones |
| LocationConverterR4.PhysicalOfCode | api_fhir_R4/converters/locationConverter.py:223-233 | a code names, if anything, one of the four known kinds |
| LocationConverterR4.PhysicalRoundTrip | api_fhir_R4/converters/locationConverter.py:198-233 | with a distinct, non-empty table, a known kind survives encoding and decoding and any other kind decodes to nothing |
| LocationConverterR4.EncodedPhysicalType | api_fhir_R4/converters/locationConverter.py:198-216 | the physical type has one coding, the physical-type system with the kind's code, and the kind's text |
| LocationConverterR4.PhysicalTypeDecoded | api_fhir_R4/converters/locationConverter.py:218-235 | a missing physical type is reported; a missing coding list raises; a facility without a record fails; otherwise the last physical-type coding sets the record's kind and a missing kind is reported |
| LocationConverterR4.BuildImisLocationType | api_fhir_R4/converters/locationConverter.py:218-235 | the loop the source runs has the outcome the physical-type stage describes |
| LocationConverterR4.HfCodeDecoded | api_fhir_R4/converters/locationConverter.py:84-90 | only the code may change; it becomes the first facility-id identifier's value when that is non-empty; a missing code is reported |
| LocationConverterR4.LocationCodeDecoded | api_fhir_R4/converters/locationConverter.py:92-98 | the stage fails exactly when the facility has no record; otherwise the record gets the same identifier's value when non-empty, and a missing record code is reported |
| LocationConverterR4.HfNameDecoded | api_fhir_R4/converters/locationConverter.py:104-111 | a missing name fails on the split; otherwise the facility name becomes the text before the first comma, with no message ever recorded |
| LocationConverterR4.JoinFirst | api_fhir_R4/converters/locationConverter.py:101-111 | the first piece of a join is a prefix of the joined text |
| LocationConverterR4.LocationNameDecoded | api_fhir_R4/converters/locationConverter.py:113-121 | a missing name fails on the split, one without a comma on the index, a facility without a record on the record; otherwise the record's name is the second piece without leading blanks |
| LocationConverterR4.SplitNoneSingle | api_fhir_R4/converters/locationConverter.py:113-117 | text that splits into fewer than two pieces holds no comma |
| LocationConverterR4.SplitTwoHasComma | api_fhir_R4/converters/locationConverter.py:113-117 | text that splits into two or more pieces holds a comma |
| LocationConverterR4.AddressDecoded | api_fhir_R4/converters/locationConverter.py:162-167 | only the address may change, and only to the text of a physical address |
| LocationConverterR4.ParentDecoded | api_fhir_R4/converters/locationConverter.py:241-246 | a missing parent reference is reported without touching the record; a present one fails without a record and is otherwise stored on it |
| LocationConverterR4.Encoded | api_fhir_R4/converters/locationConverter.py:14-25 | encoding succeeds exactly when the resource id and the joined name can be built |
| LocationConverterR4.ToFhir | api_fhir_R4/converters/locationConverter.py:14-25 | every builder runs; a success has at most three contact points, one type and two to four identifiers |
| LocationConverterR4.ToImisAsWrittenAlwaysFails | api_fhir_R4/converters/locationConverter.py:27-41 | the decoder as written fails on every Location at the location code, since the new facility has no location record |
| LocationConverterR4.EncodedTypeUnreadableAsWritten | api_fhir_R4/converters/locationConverter.py:137-145 | even with a record, the level stage as written fails on every Location the encoder produces |
| LocationConverterR4.ToImis | api_fhir_R4/converters/locationConverter.py:27-41 | an exception of a builder propagates; otherwise the facility is returned exactly when no message was recorded (corrected, Findings rows 5 and 6) |
| LocationConverterR4.DecodedCodesAgree | api_fhir_R4/converters/locationConverter.py:84-98 | whatever the Location, a decoded facility has a record, and the record carries the facility's own code |
| LocationConverterR4.TailKeepsCodes | api_fhir_R4/converters/locationConverter.py:35-39 | the stages after the names change neither the facility's code nor its record's |
| LocationConverterR4.BareLocationReportsAll | api_fhir_R4/converters/locationConverter.py:27-41 | a Location with a two-part name and nothing else succeeds, reporting the missing codes, type, physical type and parent in order |
| LocationConverterR4.LocationRoundTrip | api_fhir_R4/converters/locationConverter.py:14-246 | decoding a well-formed facility's encoding restores code, name, level, address, contacts and the record's name, kind and parent on a new facility, with no message; the record's code comes back as the facility's (corrected, Findings rows 5 and 6) |
| LocationConverterR4.HeadRoundTrip | api_fhir_R4/converters/locationConverter.py:84-121 | the identifier and name stages restore both codes and both names with no message |
| LocationConverterR4.PhysicalStageRoundTrip | api_fhir_R4/converters/locationConverter.py:198-246 | decoding the encoded physical type restores a known kind, and the parent stage then stores the reference |
| OperationOutcomeConverter.ExceptionOutcome | api_fhir/converters/operationOutcomeConverter.py:19-28 | a FHIR exception gives exactly one issue, of error severity with the configured exception code and the exception's message as its details text; anything else gives an empty outcome |
| OperationOutcomeConverter.ToFhir | api_fhir/converters/operationOutcomeConverter.py:10-13 | an outcome exactly for a FHIR exception, with one issue; nothing for anything else |
| OperationOutcomeConverter.ToImis | api_fhir/converters/operationOutcomeConverter.py:15-17 | always fails with a not-implemented error, which is not a FHIR exception, carrying the fixed message |
| OperationOutcomeConverter.RequestProcessOutcome | api_fhir/tests/test_operationOutcomeConverter.py:30-48 | a failed conversion with one error gives one error issue whose details are the fixed prefix followed by that error |
| OperationOutcomeConverter.OutcomeNamesEveryError | api_fhir/converters/operationOutcomeConverter.py:19-28 | every error of a failed conversion appears in the details of the outcome's one issue |
| PractitionerRoleConverter.LocationReferences | api_fhir/converters/practitionerRoleConverter.py:50-54 | one reference to the administrator's facility when it has one, none otherwise |
| PractitionerRoleConverter.Encoded | api_fhir/converters/practitionerRoleConverter.py:10-16 | one identifier, carrying the administrator's id under the id type, and a Practitioner reference naming the administrator |
| PractitionerRoleConverter.ToFhir | api_fhir/converters/practitionerRoleConverter.py:10-39 | the builders together produce the encoded role |
| PractitionerRoleConverter.PractitionerByReference | api_fhir/converters/practitionerRoleConverter.py:41-48 | a reference without an id is reported and finds no one; an unknown id raises does-not-exist; a stored id finds that administrator |
| PractitionerRoleConverter.FirstLocation | api_fhir/converters/practitionerRoleConverter.py:67-69 | the first reference of a non-empty list |
| PractitionerRoleConverter.LocationByReference | api_fhir/converters/practitionerRoleConverter.py:56-65 | no references give no facility and no message; otherwise only the first is read, an id-less one is reported, an unknown id raises and a stored one is found |
| PractitionerRoleConverter.ToImis | api_fhir/converters/practitionerRoleConverter.py:18-29 | a lookup exception propagates; otherwise the result is that of the error check, and a success always holds an administrator |
| PractitionerRoleConverter.OnlyFirstLocationRead | api_fhir/converters/practitionerRoleConverter.py:56-69 | the location references after the first are never read |
| PractitionerRoleConverter.BothReferencesReported | api_fhir/converters/practitionerRoleConverter.py:18-29 | two references without ids report both problems, the practitioner's first |
| PractitionerRoleConverter.PractitionerRoleRoundTrip | api_fhir/converters/practitionerRoleConverter.py:10-69 | decoding the encoding of a stored administrator gives it back with its facility, when that is stored and neither key holds a slash |
| PatientConverter.BuildImisNames | api_fhir/converters/patientConverter.py:68-78 | the loop that stops at the first usual name, or at a name without a `use` key, has the outcome of the name decoding: its exception, or its insuree with its messages appended to the earlier ones |
| PatientConverter.NamesAccepted | api_fhir/converters/patientConverter.py:68-78 | a fresh insuree's names decode without exception or message exactly when there is a name list whose first usual name, met before any name without a `use` key, has a family name and a present first given name |
| PatientConverter.NamesRaise | api_fhir/converters/patientConverter.py:68-78 | decoding raises KeyError('use') exactly when a name without a `use` key comes before every usual name, KeyError('family') exactly when the first usual name so reached has no `family` key, and nothing else |
| PatientConverter.NamesAsWrittenNotReadBack | api_fhir/converters/patientConverter.py:59-78 | as written, the encoded name list holds a `__dict__` without a `use` key, so decoding it raises KeyError('use') |
| PatientConverter.NamesRoundTrip | api_fhir/converters/patientConverter.py:59-78 | the corrected encoded name decodes back to the insuree's last and other names, with no message (corrected, Findings row 10) |
| PatientConverter.BuildFhirIdentifiers | api_fhir/converters/patientConverter.py:80-131 | the identifiers are database id, CHF id and passport, each only when present, and the passport never when the insuree has a type of id |
| PatientConverter.BuildImisIdentifiers | api_fhir/converters/patientConverter.py:88-99 | the loop leaves in the CHF id and the passport the value of the last identifier of that type code in the identifier-type system that has a value |
| PatientConverter.EncodedIdentifiersNotReadBack | api_fhir/converters/patientConverter.py:88-131 | the decoder looks for system and code on the type itself, where the encoder does not put them, so encoded identifiers leave CHF id and passport unchanged |
| PatientConverter.BirthDateDecoded | api_fhir/converters/patientConverter.py:137-146 | a missing birth date gets exactly its message; a present one becomes the date of birth |
| PatientConverter.EncodeGender | api_fhir/converters/patientConverter.py:148-159 | no gender gives "unknown"; the gender is left unset exactly for a code other than M, F and O |
| PatientConverter.GenderOtherLost | api_fhir/converters/patientConverter.py:161-173 | the gender O is encoded as "other", which the decoder as written does not read back |
| PatientConverter.DecodeGender | api_fhir/converters/patientConverter.py:161-173 | a gender decodes exactly when it is male, female or other (corrected, Findings row 1) |
| PatientConverter.GenderRoundTrip | api_fhir/converters/patientConverter.py:148-173 | encoding and the corrected decoding are inverse on M, F and O, in both directions |
| PatientConverter.GenderDecoded | api_fhir/converters/patientConverter.py:161-173 | a decodable gender sets the insuree's gender; any other leaves the insuree unchanged (corrected, Findings row 1) |
| PatientConverter.MaritalFhirCode | api_fhir/converters/patientConverter.py:175-192 | a marital-status code exists exactly for the letters M, S, D, W and N |
| PatientConverter.MaritalImisCode | api_fhir/converters/patientConverter.py:194-209 | a letter exists exactly for the five configured marital-status codes |
| PatientConverter.MaritalTablesInverse | api_fhir/converters/patientConverter.py:175-209 | with distinct codes the two tables are inverse to each other, in both directions |
| PatientConverter.EncodeMarital | api_fhir/converters/patientConverter.py:175-192 | a status is written exactly for a known letter, and its first coding carries the marital system and that letter's code |
| PatientConverter.DecodeMarital | api_fhir/converters/patientConverter.py:194-209 | a letter is read only from a concept carrying the marital system, and then from its code through the table |
| PatientConverter.MaritalFlatRoundTrip | api_fhir/converters/patientConverter.py:175-209 | a concept that carries the system and code directly decodes back to the letter it was made from |
| PatientConverter.EncodedMaritalNotReadBack | api_fhir/converters/patientConverter.py:175-209 | the encoder puts system and code inside a coding, so its own output decodes to nothing |
| PatientConverter.MaritalDecoded | api_fhir/converters/patientConverter.py:194-209 | a recognised marital status sets the letter; otherwise the insuree is unchanged |
| PatientConverter.BuildImisContacts | api_fhir/converters/patientConverter.py:224-231 | the loop leaves the value of the last phone and the last e-mail contact point |
| PatientConverter.TelecomRoundTrip | api_fhir/converters/patientConverter.py:211-231 | decoding the encoded telecom list into any insuree restores the phone and e-mail it has and keeps the others |
| PatientConverter.BuildImisAddresses | api_fhir/converters/patientConverter.py:246-253 | the loop leaves the text of the last physical address as the current address and of the last "both" address as the geolocation |
| PatientConverter.AddressesRoundTrip | api_fhir/converters/patientConverter.py:233-253 | decoding the encoded addresses into any insuree restores the current address and geolocation it has and keeps the others |
| PatientConverter.ToFhir | api_fhir/converters/patientConverter.py:17-27 | an insuree without a birth date fails; otherwise the Patient is exactly the builders' output: the corrected usual name, the identifiers (database id, CHF id, passport, each when present), birth date, gender, marital status, telecom and addresses (corrected, Findings row 10) |
| PatientConverter.ToImis | api_fhir/converters/patientConverter.py:29-49 | an exception of the name builder ends the conversion; otherwise an unauthenticated caller is refused before the messages are looked at, and an authenticated one gets the decoded insuree with audit user 1 exactly when no message was recorded (corrected, Findings row 1) |
| PatientConverter.PatientAsWrittenNotReadBack | api_fhir/converters/patientConverter.py:17-78 | as written, decoding any encoded insuree raises KeyError('use') in the name builder |
| PatientConverter.FhirIdentifiersNotReadBack | api_fhir/converters/patientConverter.py:80-131 | the identifiers the encoder builds leave the CHF id and passport of any insuree unchanged when decoded |
| PatientConverter.DecodedHead | api_fhir/converters/patientConverter.py:29-173 | on an encoded insuree the names decode without exception or message, and the identifier, birth-date, gender and marital decoders restore names, birth date and gender with no further message (corrected, Findings rows 1 and 10) |
| PatientConverter.PatientRoundTrip | api_fhir/converters/patientConverter.py:17-253 | decoding an encoded insuree raises nothing, records no message and gives back its names, birth date, gender, telecom and addresses; identifiers and marital status are not read back (corrected, Findings rows 1 and 10) |
| MedicationConverter.IntOf | api_fhir_R4/converters/medicationConverter.py:69 | the conversion succeeds exactly when the text, stripped of Python whitespace, is an optional sign and ASCII decimal digits with single underscores between digits, giving that value; otherwise a value error |
| MedicationConverter.SplitPackageForm | api_fhir_R4/converters/medicationConverter.py:55-59 | a missing package has no split; a package with fewer than two space-separated tokens fails on the index; the form found is the second token and holds no space |
| MedicationConverter.SplitPackageAmount | api_fhir_R4/converters/medicationConverter.py:66-70 | a missing package has no split; otherwise the amount is the first space-separated token read as an integer |
| MedicationConverter.PackageFormNeedsSpace | api_fhir_R4/converters/medicationConverter.py:55-59 | the form is found exactly when the package text holds a space |
| MedicationConverter.IntOfIntToString | api_fhir_R4/converters/medicationConverter.py:66-70 | an integer written out as text reads back as the same integer |
| MedicationConverter.PackageOfTokens | api_fhir_R4/converters/medicationConverter.py:55-70 | for a package whose tokens are known, the form is the second token and the amount the first read as a number |
| MedicationConverter.WordsNoSpace | api_fhir_R4/converters/medicationConverter.py:55-70 | the words of a package written as amount, form and further words hold no space |
| MedicationConverter.PackageRoundTrip | api_fhir_R4/converters/medicationConverter.py:50-70 | a package written as an amount, a form and any further words, separated by single spaces, gives back that amount and that form |
| MedicationConverter.Identifiers | api_fhir_R4/converters/medicationConverter.py:33-41 | the uuid identifier when the item has a uuid, then the code identifier, both typed with the uuid type code |
| MedicationConverter.Encoded | api_fhir_R4/converters/medicationConverter.py:8-15 | encoding succeeds exactly when form and amount can be read from the package, a form error taking precedence; a success carries the uuid as id, the identifiers, the form and the amount |
| MedicationConverter.ToFhirAsWritten | api_fhir_R4/converters/medicationConverter.py:8-15 | the conversion as written fails exactly when encoding fails, and otherwise returns nothing |
| MedicationConverter.ToFhirAsWrittenLosesMedication | api_fhir_R4/converters/medicationConverter.py:8-15 | an item whose package reads "amount form" is converted to nothing at all by the code as written |
| MedicationConverter.EncodedPackage | api_fhir_R4/converters/medicationConverter.py:8-15 | with the Medication returned, a package "amount form ..." gives a Medication keyed by the uuid with that form and that amount |
| MedicationConverter.ToFhir | api_fhir_R4/converters/medicationConverter.py:8-15 | the builders together give the encoded Medication, which is returned |
| MedicationConverter.IdentifierDecoded | api_fhir_R4/converters/medicationConverter.py:43-48 | only the code may change; it becomes the first uuid-typed identifier's value when that is non-empty; a missing code is reported |
| MedicationConverter.ToImis | api_fhir_R4/converters/medicationConverter.py:17-23 | decoding succeeds exactly when a uuid-typed identifier has a non-empty value, giving a new item with that code; otherwise the missing-code exception |
| MedicationConverter.MedicationRoundTrip | api_fhir_R4/converters/medicationConverter.py:8-48 | decoding an encoded item gives back its uuid as the item code when it has one, and its code otherwise; an empty or missing value is reported as a missing code |
| ActivityDefinitionConverter.PatCatOf | api_fhir_R4/converters/activityDefinitionConverter.py:158-171 | the category is a valid mask whose bits 8, 4, 2 and 1 are set exactly when K, A, F and M are among the letters |
| ActivityDefinitionConverter.GenderAsWritten | api_fhir_R4/converters/activityDefinitionConverter.py:118-136 | the gender pair as written holds only "F" or "" and "M" or "" |
| ActivityDefinitionConverter.AgeAsWritten | api_fhir_R4/converters/activityDefinitionConverter.py:138-156 | the age pair as written holds only "K" or "" and "A" or "" |
| ActivityDefinitionConverter.PatCatAsWrittenLost | api_fhir_R4/converters/activityDefinitionConverter.py:118-171 | with the strict comparisons as written, category 1 reads back as 0 and category 8 as 7 |
| ActivityDefinitionConverter.Gender | api_fhir_R4/converters/activityDefinitionConverter.py:118-136 | for a valid mask, "F" exactly when bit 2 is set and "M" exactly when bit 1 is set |
| ActivityDefinitionConverter.Age | api_fhir_R4/converters/activityDefinitionConverter.py:138-156 | for a valid mask, "K" exactly when bit 8 is set and "A" exactly when bit 4 is set |
| ActivityDefinitionConverter.PatCatRoundTrip | api_fhir_R4/converters/activityDefinitionConverter.py:118-171 | every valid category survives the corrected encoding and the decoding |
| ActivityDefinitionConverter.Identifiers | api_fhir_R4/converters/activityDefinitionConverter.py:52-60 | the uuid identifier when the service has a uuid, then the code identifier, both typed with the uuid type code |
| ActivityDefinitionConverter.UseContext | api_fhir_R4/converters/activityDefinitionConverter.py:107-116 | the use context can be built exactly when the service has a patient category; it has four entries, gender, age, workflow and venue, carrying the category letters, the category and the care type (corrected, Findings row 7) |
| ActivityDefinitionConverter.Encoded | api_fhir_R4/converters/activityDefinitionConverter.py:10-22 | a service without a validity date fails; a success is active, carries the type as its only topic, and fills id, identifiers, date, name and title, with the corrected gender and age contexts (corrected, Findings row 7) |
| ActivityDefinitionConverter.EncodedCode | api_fhir_R4/converters/activityDefinitionConverter.py:199-202 | the concept's first coding carries the service code and its text is the service name |
| ActivityDefinitionConverter.IdentifierDecoded | api_fhir_R4/converters/activityDefinitionConverter.py:62-68 | only the code may change; it becomes the first uuid-typed identifier's value when that is non-empty; a missing code is reported |
| ActivityDefinitionConverter.Required | api_fhir_R4/converters/activityDefinitionConverter.py:78-105 | a missing field is reported and a present one is returned for the caller to store |
| ActivityDefinitionConverter.FieldsDecoded | api_fhir_R4/converters/activityDefinitionConverter.py:78-105 | validity date, code and name come from date, name and title when present; the topic list lands in the topic attribute; a missing date, name and title are each reported |
| ActivityDefinitionConverter.PatCatDecodedAsWritten | api_fhir_R4/converters/activityDefinitionConverter.py:158-160 | the patient-category stage as written always fails, reading a code off the use-context list |
| ActivityDefinitionConverter.ContextByCode | api_fhir_R4/converters/activityDefinitionConverter.py:158-185 | the entry found carries the code and is one of the use context's entries; nothing is found only when no entry carries the code |
| ActivityDefinitionConverter.UseContextDecoded | api_fhir_R4/converters/activityDefinitionConverter.py:158-185 | the decoded category is a valid mask; only category mask, category and care type change; a missing workflow or venue text is reported |
| ActivityDefinitionConverter.ToImisAsWrittenAlwaysFails | api_fhir_R4/converters/activityDefinitionConverter.py:24-37 | the decoder as written never returns a service: every ActivityDefinition fails at the patient category |
| ActivityDefinitionConverter.ToImis | api_fhir_R4/converters/activityDefinitionConverter.py:24-37 | every stage runs before the error check, and a decoded service always has a valid category mask (corrected, Findings rows 7 and 8) |
| ActivityDefinitionConverter.EmptyReportsAll | api_fhir_R4/converters/activityDefinitionConverter.py:24-37 | an empty ActivityDefinition reports, in order, every missing field |
| ActivityDefinitionConverter.ActivityDefinitionRoundTrip | api_fhir_R4/converters/activityDefinitionConverter.py:10-197 | decoding an encoded service gives back code, name, validity date, category mask, category and care type, and its type as the only topic, with no message (corrected, Findings rows 7 and 8) |
| ActivityDefinitionConverter.ContextRoundTrip | api_fhir_R4/converters/activityDefinitionConverter.py:107-185 | decoding the encoded use context restores the category mask, the category and the care type with no message (corrected, Findings rows 7 and 8) |
| ActivityDefinitionConverter.EncodedContextLookups | api_fhir_R4/converters/activityDefinitionConverter.py:107-116 | in an encoded use context each of the four codes finds the entry the encoder wrote for it |
| Strings.Split | api_fhir_R4/converters/medicationConverter.py:57 | splitting gives at least one piece, no piece holds the separator, and joining the pieces with it gives the text back |
| Strings.SplitJoin | api_fhir_R4/converters/locationConverter.py:102-117 | splitting parts joined by a separator they do not hold gives the parts back |
| Strings.LStrip | api_fhir_R4/converters/locationConverter.py:118 | the result is a suffix of the text that does not start with a blank, and only blanks were removed |
| Strings.ParseIntOfIntToString | api_fhir_R4/converters/medicationConverter.py:69 | an integer written out as text parses back as that integer |

## Left out

- **Base and utility code.** The JSON text layer is not part of this model: `json.loads`/`json.dumps` and character escaping are left out. Serialization is modelled down to dictionaries of values.
- **Database lookups.** `DbManagerUtils` and the Django ORM are not part of this model. Each lookup is a set of known keys or a map of known records, passed as a parameter. A lookup that finds nothing produces the error the source produces.
- **Clock reads.** The clock reads `TimeUtils.now()` and `date.today()` fill `validity_from` and `created`. They are left out or passed as parameters.
- **Dates.** Dates are carried as their ISO text, and the date parsing inside `FHIRDate` is a parameter (`validate_type`).
- **Utilities not part of this model.** These are `BaseFHIRConverter`, the R4 base converter, `R4IdentifierConfig`, `ReferenceConverterMixin`, `TimeUtils` and `FhirUtils`.
  - The next sequential identifier of `FhirUtils` is modelled as the length of the list plus one.
- **Aliasing.** Nested FHIR objects are held by value, so aliasing between objects that share a child is not modelled.
- **Django serializers.** `PatientSerializer.create` and `update` write to the database and are left out.
- **Enumeration tables.** The physical-type getters and the values of `ImisLocationType` and `ImisHfLevel` are parameters of the R4 location model.
- **R4 `build_fhir_items` lookups.** Its lookup results are discarded by the source and are not modelled.
- **`build_fhir_unitPrice`.** It has no body in the medication converter: the file ends after its header. The model follows the evident intent of the other builders and leaves the unit price out of the Medication.
- **Medication identifiers.** `MedicationConverter.ToImis` models the source as written: both identifiers carry the uuid type code, so the decoded item code is the uuid.
- **Activity definition fields.**
  - `ActivityDefinitionConverter.FieldsDecoded` follows the code: the service code read from the identifiers is overwritten by the name.
  - The topic goes to a `topic` attribute of the service, and the service type is never restored.
  - `build_fhir_code` is not called by `to_fhir_obj` and has no effect on the model's encoding.
- ToFhirR4 (`ClaimResponseConverter`): the response's identifiers are the claim's identifiers, given as built; the R4 `ClaimConverter.build_fhir_identifiers` that builds them (api_fhir_R4/converters/claimResponseConverter.py:24) is not part of this model.
- **Date of the location default.** `LocationConverterR4.DefaultHealthFacility` does not set `validity_from`, which the source reads from the clock.
- **Integer width.** Integers are unbounded, as Python's are.
- BuildFhirOutcomeStu3 (`ClaimResponseConverter`): the outcome's code is the status written as decimal text, because the model's coding code is a string; the source stores the integer status itself as the code.
- MarshallMessage (`Serialization`): the class in the message is written `<class 'Name'>`; Python prints the module-qualified class name, which the model does not carry.
- PatientConverter.ToImis: an unauthenticated caller gets NotAuthenticated only when the name builder raises nothing; a name list that makes it raise fails with that KeyError first, as the source does.
- **Decimal amounts.** Money values, the claim-response totals (valuated, reinsured, approved, claimed) and the activity-definition price are integers. IMIS stores them as decimals, so fractional amounts and their rounding are not modelled.
- **A list property assigned its own list.** In the source, `obj.p = obj.p` for a list property empties it: `del [:]` clears the very list that is then copied item by item. The model's values are not shared, so `FhirObjects.FhirObject.SetDeclared` keeps the items.
- **Name dictionaries.** A name in a request body is a dictionary of the keys `use`, `family` and `given` only; other keys and non-dictionary entries are not modelled.
- **Element classes.** Each converter stores some element as `obj.__dict__`. What that dictionary holds depends on how the element's class is declared, and the model fixes one reading per class:
  - `HumanName` is taken as declared with `Property` descriptors, like `Contract` (api_fhir/models/contract.py:4-8), so `name.__dict__` holds only `_values` (models/__init__.py:99-111). Findings rows 10 and 11 rest on this reading.
  - `ContactPoint` and `Location` are plain-attribute classes whose `__init__` sets each field (api_fhir/models/contactPoint.py:4-22, api_fhir/models/location.py:7-72), so their `__dict__` is their field record. `Identifier`, `CodeableConcept` and `Address` are taken the same way.
  - This reading assumes that these classes bypass the check of `FHIRBaseObject.__setattr__` (api_fhir/models/__init__.py:108-111), which refuses every undeclared name that does not start with `_`. `Location` derives from `DomainResource`, as the `Property`-based `Contract` does. If that hierarchy reaches `FHIRBaseObject.__setattr__`, then `Location()` raises `InvalidAttributeError` for `identifier` (api_fhir/models/location.py:11), and `ContactPoint()` raises it for `period` (api_fhir/models/contactPoint.py:9). The STU3 location conversion and every telecom builder would then fail. api_fhir/models/element.py and domainResource.py are not part of this model, and the model does not capture that failure.
  - api_fhir/models/humanName.py, identifier.py, codeableConcept.py and address.py are not part of this model. If `HumanName` is a plain-attribute class, Findings rows 10 and 11 do not arise. If any of the other four is `Property`-based, the members below store dictionaries without fields, and the round trips that read them back do not hold.
- TypedIdentifier (`ConverterInsuree`): the stored `code.__dict__` is taken as the concept's field record (plain-attribute reading above).
- EncodedIdentifiers (`ConverterInsuree`): each stored `identifier.__dict__` is taken as the identifier's field record (plain-attribute reading above).
- BuildFhirIdentifiers (`ConverterInsuree`): the appended `identifier.__dict__`s are taken as identifier field records (plain-attribute reading above).
- Identifiers (`LocationConverter`): the stored `identifier.__dict__` is taken as the identifier's field record (plain-attribute reading above).
- IdentifiersRoundTrip (`LocationConverter`): holds under the plain-attribute reading of `Identifier` above; a `Property`-based identifier would read back without its value.
- EncodedType (`LocationConverter`): the stored concept `__dict__` is taken as the concept's field record (plain-attribute reading above).
- LevelStageRoundTrip (`LocationConverter`): holds under the plain-attribute reading of `CodeableConcept` above; under a `Property`-based one the decoder's `get('coding')` finds nothing.
- EncodedAddress (`LocationConverter`): the stored `address.__dict__` is taken as the address's field record (plain-attribute reading above).
- Telecom (`LocationConverter`): the stored contact-point `__dict__`s are taken as field records (plain-attribute reading above, api_fhir/models/contactPoint.py:4-22).
- BuildFhirTelecom (`LocationConverter`): as for `Telecom`, the appended `__dict__`s are contact-point field records.
- TelecomSystem (`LocationConverter`): relies on the contact-point `__dict__` carrying `system` and `value`, as the plain-attribute `ContactPoint` does.
- TelecomRoundTrip (`LocationConverter`): holds under the plain-attribute reading of `ContactPoint` above.
- ToFhir (`LocationConverter`): the encoded Location holds field records for identifiers, type, address and telecom (plain-attribute reading above).
- LocationRoundTrip (`LocationConverter`): holds under the plain-attribute reading of `Identifier`, `CodeableConcept`, `Address` and `ContactPoint` above.
- BuildFhirIdentifiers (`PatientConverter`): the appended `identifier.__dict__`s, with `type = type.__dict__`, are taken as field records (plain-attribute reading above).
- EncodeMarital (`PatientConverter`): the stored concept `__dict__` is taken as the concept's field record (plain-attribute reading above).
- TelecomRoundTrip (`PatientConverter`): holds under the plain-attribute reading of `ContactPoint` above.
- AddressesRoundTrip (`PatientConverter`): holds under the plain-attribute reading of `Address` above.
- ToFhir (`PatientConverter`): the encoded Patient holds field records for identifiers, marital status, telecom and addresses (plain-attribute reading above), and the corrected name.
- PatientRoundTrip (`PatientConverter`): its telecom and address clauses hold under the plain-attribute reading of `ContactPoint` and `Address` above.
- IntOf (`MedicationConverter`): only ASCII decimal digits are read. Python's `int()` also accepts the other Unicode decimal digits (for example Arabic-Indic `١٠`), which the model refuses with a value error.
- AdjudicationReason (`ClaimResponseConverter`): the reason's code is the status written as decimal text, because the model's coding code is a string; the source stores the integer status itself as the code (api_fhir_R4/converters/claimResponseConverter.py:188).
- Raw (`Serialization`): a FHIR object found inside a plain list or dictionary value is converted to its dictionary; Python's `toDict` leaves it as it is, which the model's value type cannot hold.

## Findings

| source | as written | input that shows it | evidently intended | confidence | as-written member | corrected member |
|---|---|---|---|---|---|---|
| api_fhir/converters/patientConverter.py:161-173 | the third test of `build_imis_gender` compares with FEMALE again, so OTHER is never decoded | an insuree with gender "O": encoded as `other`, decoded to no gender | the third test compares with OTHER, giving "O" | high, not executed | PatientConverter.GenderOtherLost | PatientConverter.GenderRoundTrip |
| api_fhir/converters/claimConverter.py:145-151 | `get_diagnosis_type` reads `.text` on the diagnosis's list of type concepts | any diagnosis the encoder builds: it has one type concept, and reading it raises AttributeError | read the text of the first type concept | high, not executed | ClaimConverter.EncodedDiagnosisTypeUnreadable | ClaimConverter.EncodedDiagnosisType |
| api_fhir/models/__init__.py:100-106 | `__init__` assigns the keyword arguments before `self._values` exists | `Patient(gender="male")` raises AttributeError on `_values` | create `_values` first, then assign the arguments | high, not executed | FhirObjects.InitAsWrittenRejectsEveryProperty | FhirObjects.InitKeepsInvariant |
| api_fhir_R4/converters/claimResponseConverter.py:206-266 | the `if`/`elif` chain of `build_fhir_total` misses the pattern "valuated, approved and claimed without reinsured", and its `else` lists all four totals | a claim with every amount except the reinsured one: the response holds an empty reinsured total | list exactly the totals that have an amount, in order | high, not executed | ClaimResponseConverter.TotalsAsWrittenCounterexample | ClaimResponseConverter.TotalsReportAmounts |
| api_fhir_R4/converters/locationConverter.py:27-65 | `createDefaultInsuree` gives the new facility no location record, and the decoder writes the location code into it | every Location fails at the location code | give the new facility an empty location record | medium, not executed | LocationConverterR4.ToImisAsWrittenAlwaysFails | LocationConverterR4.LocationRoundTrip |
| api_fhir_R4/converters/locationConverter.py:140-155 | `build_imis_hf_level` reads `.coding` on the `type` list, which the R4 encoder builds as a list | every Location the encoder produces raises AttributeError | read the codings of every concept in the list | high, not executed | LocationConverterR4.EncodedTypeUnreadableAsWritten | LocationConverterR4.LevelStageRoundTrip |
| api_fhir_R4/converters/activityDefinitionConverter.py:118-156 | `build_fhir_gender` and `build_fhir_age` peel a bit off only when the rest is strictly above it | patient category 1 reads back as 0, and 8 as 7 | `>=` in each test | high, not executed | ActivityDefinitionConverter.PatCatAsWrittenLost | ActivityDefinitionConverter.PatCatRoundTrip |
| api_fhir_R4/converters/activityDefinitionConverter.py:158-185 | the use-context decoders read `.code` and `.text` on the `useContext` list | every ActivityDefinition raises AttributeError | look up the use-context entries by code | high, not executed | ActivityDefinitionConverter.ToImisAsWrittenAlwaysFails | ActivityDefinitionConverter.ActivityDefinitionRoundTrip |
| api_fhir_R4/converters/medicationConverter.py:8-15 | `to_fhir_obj` builds the Medication but never returns it | an item with package "10 tablets" converts to `None` | return the Medication | high, not executed | MedicationConverter.ToFhirAsWrittenLosesMedication | MedicationConverter.EncodedPackage |
| api_fhir/converters/patientConverter.py:59-66 | `build_human_names` stores `name.__dict__`, which holds only `_values`, as the Patient's name | any insuree: decoding its encoding raises KeyError('use') | store the dictionary of the name's properties | low (holds only if `HumanName` is `Property`-based; see Element classes), not executed | PatientConverter.PatientAsWrittenNotReadBack | PatientConverter.PatientRoundTrip |
| api_fhir/serializers/patientSerializer.py:27-34 | `buildHumanNames` stores `name.__dict__`, which holds only `_values`, as the Patient's name | any insuree: decoding its encoding raises KeyError('use') | store the dictionary of the name's properties | low (holds only if `HumanName` is `Property`-based; see Element classes), not executed | ConverterInsuree.InsureeAsWrittenNotReadBack | ConverterInsuree.InsureeRoundTrip |
