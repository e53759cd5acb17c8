# Lucky Truck invoice core, modelled in Dafny

Lucky Truck reads photographed Mexican transport invoices ("facturas"). The
back end OCRs each image and picks the better reading of the original and
the enhanced picture. It classifies the text as a weekly transport invoice
(`facture_weekend`) or a single-trip weighing ticket (`facture_trip`). It
asks an AI model for the fields, then cleans and defaults what comes back.
Finally it files the result in date-named folders, where a trip ticket
joins the weekly invoice that mentions its code. The web front end proxies
uploads and corrections to the back end after validating them. It lets a
user edit the corrected invoice as a tree of JSON values: one leaf editor
per scalar, a record editor and a list editor per container, and a
dispatcher that stops drawing containers below a fixed depth.

The model is split into one Dafny module per concern:

- Shared modules:
  - `Wrappers`, `Text`, `Calendar`: options and results, strings, Python date-times.
  - `JsonValue`: JSON values as the front end holds them.
  - `PyValue`: Python values as the back end holds them: dicts in insertion order, truthiness, `in`, `str`.
  - `JsPlatform`: the browser's date parser and clock, as parameters.
- Front end:
  - `DateDetect`: the two date detectors.
  - `LeafEditor`: classification, coercion on save, and the edit state machine as a class.
  - `RecordEditor`, `ListEditor`: the container editors as classes over their React state.
  - `Dispatcher`: the depth-bounded dispatcher and path updates.
  - `Labels`, `Defaults`: the label tables and default values.
  - `Proxy`: the role rewrite.
  - `UploadRoute`: upload and correction validation.
- Back end:
  - `InvoiceType`: the invoice-type detector.
  - `OcrSelect`: OCR selection and batch tallies.
  - `PyConvert`: the forgiving number converters.
  - `WeekendProcessor`, `TripProcessor`: the two field mappers.
  - `FileManager`: folder naming, the weekend-folder match, date-range search and corrections.

Library parsers are fields of a record passed to every operation that needs
them: `strptime`, `fromisoformat`, `Decimal(str)`, `float(str)`, JavaScript
`new Date`, `Number`, and the regex engines for patterns with metacharacters.
So are the clocks (`datetime.now()`, `Date.now()`). Literal digit-only
patterns are searched in the model itself. The AI answer, the OCR readings,
the folder listings and the stored JSON files are inputs.

## Model

| member | source | states |
|---|---|---|
| DateDetect.EditorDetect | web_fronted/components/ui/expandableValue/EditableField.tsx:32-68 | a value is a date only if it is a string of one of the eight shapes; `YYYY-MM-DD` and `YYYY-MM-DD HH:MM` are always dates, read field by field; the other shapes are dates exactly when the generic parser gives a valid instant; `hasTime` holds exactly for the T-time and space-time shapes |
| DateDetect.UtilsDetect | web_fronted/lib/utils.ts:129-152 | a date exactly when the string has one of the six shapes and generic parsing gives a valid instant; it has time exactly for the T-time shape |
| DateDetect.DetectorsDisagreeOnDateHourMinute | web_fronted/lib/utils.ts:129-152 | a `YYYY-MM-DD HH:MM` string is a dated value with time to the editor but not a date at all to the helper |
| DateDetect.MillisImpliesSeconds | web_fronted/components/ui/expandableValue/EditableField.tsx:34-43 | the millisecond-and-Z timestamp shape is a special case of the seconds shape |
| DateDetect.DateOnlyShapesHaveNoTime | web_fronted/components/ui/expandableValue/EditableField.tsx:65 | the four date-only shapes contain no `T` and no time of day |
| DateDetect.IsoDateTimeHasT | web_fronted/components/ui/expandableValue/EditableField.tsx:65 | every T-time string contains `T` |
| DateDetect.EditorTimeShapes | web_fronted/components/ui/expandableValue/EditableField.tsx:65 | among the editor's shapes, containing `T` or a space followed by a time is the same as being one of the three shapes with a time |
| DateDetect.UtilsTimeShapes | web_fronted/lib/utils.ts:150 | among the helper's shapes, containing `T` or a time is the same as being the T-time shape |
| DateDetect.IsoTimestampDatePart | web_fronted/lib/utils.ts:108 | the text before `T` of an ISO timestamp is its first ten characters and has the `YYYY-MM-DD` shape |
| LeafEditor.ValueType | web_fronted/components/ui/expandableValue/EditableField.tsx:111-122 | the type badge is one of the seven names; it says date exactly when the detector accepts, and text exactly for the strings it rejects |
| LeafEditor.ValueStatus | web_fronted/components/ui/expandableValue/EditableField.tsx:124-142 | dates split into with and without time; numbers split into negative, zero and positive; NaN and non-date non-empty strings are "Dato válido" |
| LeafEditor.TypeAndStatusAgreeOnDates | web_fronted/components/ui/expandableValue/EditableField.tsx:111-142 | the badge says date exactly when the description names one of the two date statuses |
| LeafEditor.FormatForInput | web_fronted/components/ui/expandableValue/EditableField.tsx:182-206 | a non-date gives an empty buffer; a date the generic parser reads gives `YYYY-MM-DDTHH:MM` when it has a time and `YYYY-MM-DD` otherwise, from the parsed local time; a date it cannot read gives the NaN text of the same kind |
| LeafEditor.InitialBuffer | web_fronted/components/ui/expandableValue/EditableField.tsx:208-218 | a date starts from its input form (`FormatForInput`), a boolean from "true" or "false", and any other value from the value itself; a scalar value gives a scalar buffer |
| LeafEditor.Coerce | web_fronted/components/ui/expandableValue/EditableField.tsx:70-104 | the branch is chosen by the original value: a date whose buffer the generic parser reads is saved as `YYYY-MM-DD HH:MM` when the original had a time and `YYYY-MM-DD` otherwise, and an unreadable date buffer passes through; a number gives `Number(buffer)`; a boolean is true exactly when the buffer is "true"; anything else keeps the buffer verbatim |
| LeafEditor.UneditedSaveKeepsNonDate | web_fronted/components/ui/expandableValue/EditableField.tsx:70-104 | saving a non-date scalar without editing it gives back the same value |
| Text.FourDigitText | web_fronted/components/ui/expandableValue/EditableField.tsx:77-96 | a four-digit year is written as four digits that read back as the year (shared with the folder names of the file manager) |
| LeafEditor.DateTextShape | web_fronted/components/ui/expandableValue/EditableField.tsx:88-96 | a saved date without time has the `YYYY-MM-DD` shape |
| LeafEditor.DateTimeTextShape | web_fronted/components/ui/expandableValue/EditableField.tsx:77-87 | a saved date with time has the `YYYY-MM-DD HH:MM` shape |
| LeafEditor.SavedDateKeepsKind | web_fronted/components/ui/expandableValue/EditableField.tsx:74-96 | saving a readable buffer over a date gives a date again, with time exactly when the original had time |
| LeafEditor.UneditedSaveKeepsDateTime | web_fronted/components/ui/expandableValue/EditableField.tsx:74-96 | a `YYYY-MM-DD HH:MM` value saved without editing comes back unchanged, provided the runtime reads both the stored text and the input control's text as that local time |
| LeafEditor.EditableField.constructor | web_fronted/components/ui/expandableValue/EditableField.tsx:15-17 | the field starts out of edit mode with an empty buffer and nothing emitted |
| LeafEditor.EditableField.StartEditing | web_fronted/components/ui/expandableValue/EditableField.tsx:208-218 | enters edit mode with the seeded buffer and emits nothing |
| LeafEditor.EditableField.Type | web_fronted/components/ui/expandableValue/EditableField.tsx:401 | typing replaces the buffer and changes nothing else |
| LeafEditor.EditableField.Save | web_fronted/components/ui/expandableValue/EditableField.tsx:70-104 | leaves edit mode, keeps the buffer, and emits exactly one value, the coerced buffer |
| LeafEditor.EditableField.Cancel | web_fronted/components/ui/expandableValue/EditableField.tsx:106-109 | leaves edit mode, clears the buffer and emits nothing |
| RecordEditor.DefaultFor | web_fronted/components/ui/expandableValue/ExpandableObject.tsx:34-84 | every field-type default is a well-formed value |
| RecordEditor.NewDateFieldsAreDates | web_fronted/components/ui/expandableValue/ExpandableObject.tsx:34-84 | a new date field holds a date without time; a new date-time field holds a date with time |
| RecordEditor.Emit | web_fronted/components/ui/expandableValue/ExpandableObject.tsx:88-90 | a callback is called exactly once with the new value when one is wired, and never otherwise |
| RecordEditor.AddNamedFieldSpec | web_fronted/components/ui/expandableValue/ExpandableObject.tsx:93-106 | adding succeeds exactly when the trimmed name is not blank and the untrimmed name is not a key; the trimmed name then holds the type's default, every other key keeps its value, a new key goes last, and keys stay unique |
| RecordEditor.PaddedNameReplacesExistingKey | web_fronted/components/ui/expandableValue/ExpandableObject.tsx:94-98 | a padded name whose trimmed form is a key is accepted and overwrites that key in place, keeping key order |
| RecordEditor.ChangeFieldKeepsOthers | web_fronted/components/ui/expandableValue/ExpandableObject.tsx:86-91 | setting a key keeps the key order and changes that key's value only |
| RecordEditor.RemoveFieldSpec | web_fronted/components/ui/expandableValue/ExpandableObject.tsx:108-113 | removing a key drops exactly that key: the entry at its position is cut out and the other fields keep their values and their order; uniqueness is kept, and removing an absent key changes nothing |
| RecordEditor.RemoveKeyAbsent | web_fronted/components/ui/expandableValue/ExpandableObject.tsx:108-113 | removing an absent key gives an equal record |
| RecordEditor.RecordPanel.constructor | web_fronted/components/ui/expandableValue/ExpandableObject.tsx:27-30 | the panel starts expanded only at depth 0, with an empty name, type "string" and the form closed |
| RecordEditor.RecordPanel.Receive | web_fronted/components/ui/expandableValue/ExpandableObject.tsx:26 | a new value from the parent replaces the record and keeps the panel's own state |
| RecordEditor.RecordPanel.ToggleExpanded | web_fronted/components/ui/expandableValue/ExpandableObject.tsx:141 | flips the expansion and nothing else |
| RecordEditor.RecordPanel.OpenAddForm | web_fronted/components/ui/expandableValue/ExpandableObject.tsx:325 | opens the add form and nothing else |
| RecordEditor.RecordPanel.TypeName | web_fronted/components/ui/expandableValue/ExpandableObject.tsx:227 | records the typed name and nothing else |
| RecordEditor.RecordPanel.SelectType | web_fronted/components/ui/expandableValue/ExpandableObject.tsx:242 | records the chosen type and nothing else |
| RecordEditor.RecordPanel.ChangeField | web_fronted/components/ui/expandableValue/ExpandableObject.tsx:86-91 | emits the record with that key set, once if wired, and leaves the panel's state alone |
| RecordEditor.RecordPanel.AddField | web_fronted/components/ui/expandableValue/ExpandableObject.tsx:93-106 | on success emits the extended record and resets the form; on a blank or duplicate name emits nothing and keeps the form |
| RecordEditor.RecordPanel.RemoveField | web_fronted/components/ui/expandableValue/ExpandableObject.tsx:108-113 | emits the record without the key, once if wired |
| RecordEditor.RecordPanel.CancelAdd | web_fronted/components/ui/expandableValue/ExpandableObject.tsx:301-305 | closes the form and resets name and type, emitting nothing |
| ListEditor.ReplaceItem | web_fronted/components/ui/expandableValue/ExpandableArray.tsx:19-25 | the new list has the same length, the new item at the index, and every other item unchanged |
| ListEditor.DeepCopy | web_fronted/components/ui/expandableValue/ExpandableArray.tsx:32-44 | the copy equals its source |
| ListEditor.TemplateDateIsNewDate | web_fronted/components/ui/expandableValue/ExpandableArray.tsx:47-54 | the empty-list template's date is today's date, the same text a new date field of a record gets |
| ListEditor.TemplateKeys | web_fronted/components/ui/expandableValue/ExpandableArray.tsx:47-54 | the empty-list template has exactly the distinct keys id, nombre, activo, fecha, in that order |
| ListEditor.NewItem | web_fronted/components/ui/expandableValue/ExpandableArray.tsx:27-56 | the appended item equals the last item, or is the template for an empty list |
| ListEditor.WithoutIndex | web_fronted/components/ui/expandableValue/ExpandableArray.tsx:62-67 | an index in range is cut out; an out-of-range index leaves the list as it was |
| ListEditor.RemoveItemShifts | web_fronted/components/ui/expandableValue/ExpandableArray.tsx:62-67 | removal shortens the list by one; items before the index stay and items after it shift down by one |
| ListEditor.ListPanel.constructor | web_fronted/components/ui/expandableValue/ExpandableArray.tsx:17 | the list starts expanded only at depth 0 and has emitted nothing |
| ListEditor.ListPanel.ToggleExpanded | web_fronted/components/ui/expandableValue/ExpandableArray.tsx:82 | flips the expansion and nothing else |
| ListEditor.ListPanel.ChangeItem | web_fronted/components/ui/expandableValue/ExpandableArray.tsx:19-25 | emits the list with that item replaced, once if wired |
| ListEditor.ListPanel.AddItem | web_fronted/components/ui/expandableValue/ExpandableArray.tsx:27-60 | emits the list with a copy of its last item, or the template, appended, once if wired |
| ListEditor.ListPanel.RemoveItem | web_fronted/components/ui/expandableValue/ExpandableArray.tsx:62-67 | emits the list without the index, once if wired |
| Dispatcher.Route | web_fronted/components/ui/expandableValue/ExpandableValue.tsx:16-54 | a value deeper than 5 gets only the depth marker; within the limit, arrays go to the list editor, objects to the record editor and exactly the scalars to the leaf editor |
| Dispatcher.EditSpec | web_fronted/components/ui/expandableValue/ExpandableValue.tsx:25-54 | a leaf edit through the nested editors reaches the root exactly when every container on the path is drawn, the leaf is a scalar and a callback is wired; the new root is the old one updated at that path |
| Dispatcher.PanelEditSpec | web_fronted/components/ui/expandableValue/ExpandableValue.tsx:25-54 | a save through a container's child reaches the container's parent exactly when the child path leads to a scalar within the depth cut and a callback is wired, with only that child rebuilt |
| Dispatcher.ScalarBelowDeepestContainerIsEditable | web_fronted/components/ui/expandableValue/ExpandableObject.tsx:197-204 | a scalar inside a container at depth 5 is still editable, because scalar children bypass the depth check |
| Dispatcher.UpdateAtGet | web_fronted/components/ui/expandableValue/ExpandableValue.tsx:28-51 | after an edit at a path, the path holds the new value |
| Dispatcher.ChildOfReplace | web_fronted/components/ui/expandableValue/ExpandableObject.tsx:86-91 | replacing one child leaves the other children as they were |
| Dispatcher.UpdateAtKeepsOthers | web_fronted/components/ui/expandableValue/ExpandableValue.tsx:28-51 | an edit at one path leaves every diverging path unchanged |
| Dispatcher.UpdateAtKeepsPaths | web_fronted/components/ui/expandableValue/ExpandableValue.tsx:28-51 | an edit keeps every prefix of the edited path present |
| Labels.Translate | web_fronted/lib/utils.ts:153-158 | a table key gives its label; any other name gives "" |
| Labels.FormatHolder | web_fronted/lib/utils.ts:7-86 | unknown invoice types give ""; the two known types look the name up in their own table |
| Labels.PrototypeMembersAreNoFields | web_fronted/lib/utils.ts:9-81 | no inherited object member is a key of either label table |
| Labels.AsWrittenAgreesExceptInherited | web_fronted/lib/utils.ts:153-158 | the code as written gives the corrected label for every name except the inherited object members, where it gives the member instead |
| Labels.ConstructorKeyIsNotALabel | web_fronted/lib/utils.ts:153-158 | for a field named "constructor" the code as written returns the inherited member, where "" is intended |
| Labels.KnownLabels | web_fronted/lib/utils.ts:15 | tax_folio is "Folio Fiscal" on weekly invoices; gross_weight is "Peso Bruto" on trips; tax_folio has no trip label |
| Defaults.DefaultString | web_fronted/lib/utils.ts:101-114 | a date with time gives the current timestamp, a date without time gives today's date, an e-mail-like text gives the sample address, and everything else gives "" |
| Defaults.DefaultKeepsKeys | web_fronted/lib/utils.ts:94-100 | an object's default has exactly the same keys in the same order, each defaulted in turn |
| Defaults.DefaultOfScalars | web_fronted/lib/utils.ts:87-128 | null becomes "", a list [], a number 0, a boolean false, a string a string |
| Defaults.DefaultIsBlank | web_fronted/lib/utils.ts:87-128 | every default is blank: empty lists, zero, false, and as strings only "", the sample address, the current timestamp or today's date |
| Defaults.DefaultKeepsWf | web_fronted/lib/utils.ts:94-100 | defaulting keeps object keys unique |
| Defaults.DefaultIdempotent | web_fronted/lib/utils.ts:87-128 | defaulting a default changes nothing when the clock's timestamp is a valid ISO timestamp |
| Defaults.StringIdempotent | web_fronted/lib/utils.ts:101-114 | the same for strings |
| Proxy.Remainder | web_fronted/proxy.ts:13 | a dashboard path is "/dashboard" followed by the remainder |
| Proxy.PrefixesDisjoint | web_fronted/proxy.ts:11-22 | no dashboard path is also an admin or user dashboard path |
| Proxy.Route | web_fronted/proxy.ts:4-29 | without a role, dashboard paths go to /login; admin and user roles get their dashboard rewrite with the remainder kept; other roles pass; admin and user dashboard paths always redirect to /dashboard; a rewrite needs one of the two roles |
| Proxy.Middleware | web_fronted/proxy.ts:31-38 | paths outside the four matcher patterns pass untouched |
| Proxy.LoginRedirectOnlyOnDashboard | web_fronted/proxy.ts:7-10 | the login redirect happens exactly for role-less requests to /dashboard or /dashboard/… |
| Proxy.RedirectsSettle | web_fronted/proxy.ts:4-29 | following the rule's redirects ends after at most two hops |
| UploadRoute.PostIdentifier | web_fronted/app/api/factures/route.ts:12-14 | the rate-limit key is the forwarded address, else the real address, else "unknown" |
| UploadRoute.LeadingDigits | web_fronted/app/api/factures/route.ts:27 | `parseInt` reads the longest prefix of digits of the radix |
| UploadRoute.ParseUnsigned | web_fronted/app/api/factures/route.ts:27 | `parseInt` gives NaN exactly when no digit follows the sign and prefix |
| UploadRoute.ParseInt | web_fronted/app/api/factures/route.ts:27 | after leading white space and one sign, NaN exactly when no digit follows; otherwise the magnitude is the digits read, negative only after a minus sign |
| UploadRoute.ParseIntReadsInteger | web_fronted/app/api/factures/route.ts:27 | every integer written in decimal, after any white space and before any text that cannot continue it, reads back as itself |
| UploadRoute.ParseIntAfterSpaces | web_fronted/app/api/factures/route.ts:27 | leading white space never changes what `parseInt` reads |
| UploadRoute.LimitReadsInteger | web_fronted/app/api/factures/route.ts:27-116 | a limit field holding an integer, with or without surrounding text, is read as that integer and refused exactly when it is below 0 or above 100 |
| UploadRoute.LimitDefaultsToZero | web_fronted/app/api/factures/route.ts:27 | a missing or empty thinking limit counts as 0 |
| UploadRoute.LimitNaNPasses | web_fronted/app/api/factures/route.ts:111-116 | a non-numeric limit parses to NaN and passes the range check |
| UploadRoute.CollapseSpaces | web_fronted/app/api/factures/route.ts:97 | the stored filename has no white space and names without spaces are kept as they are |
| UploadRoute.ImageProblem | web_fronted/app/api/factures/route.ts:54-109 | an upload is accepted exactly when it is a file whose type starts with "image/", whose size is at most 50 MiB, whose lower-cased type is allowed and whose bytes can be read; the checks apply in that order |
| UploadRoute.Accept | web_fronted/app/api/factures/route.ts:95-101 | an accepted image keeps its size, type and original name, and its filename has no white space |
| UploadRoute.FirstRejected | web_fronted/app/api/factures/route.ts:52-109 | the reported image is the first one with a problem; none is reported exactly when all pass |
| UploadRoute.FirstRejectedFrom | web_fronted/app/api/factures/route.ts:52-109 | the same, from a given position on |
| UploadRoute.TotalSizeBound | web_fronted/app/api/factures/route.ts:125 | the total size is at most the count times 50 MiB |
| UploadRoute.CheckImages | web_fronted/app/api/factures/route.ts:52-110 | the loop reports the first rejected image; with none rejected it returns every image accepted, in order |
| UploadRoute.SumSizes | web_fronted/app/api/factures/route.ts:125 | the loop's total is the sum of the sizes |
| UploadRoute.BatchSizeBound | web_fronted/app/api/factures/route.ts:45-125 | a batch of at most 10 images of at most 50 MiB each totals at most 500 MiB |
| UploadRoute.PostImages | web_fronted/app/api/factures/route.ts:52-188 | after the count checks: the first bad image (400 for a failed check, 500 for an unreadable file), then the limit range, then unparsable metadata, answer in order; otherwise every image is forwarded accepted, in order, with the total size and the merged metadata |
| UploadRoute.Post | web_fronted/app/api/factures/route.ts:10-188 | the checks answer in order: rate limit 429, no image, more than 10, the first bad image (400, or 500 when its bytes cannot be read), the limit range, then metadata that `JSON.parse` rejects (408 when the error mentions a timeout, else 500); the request is forwarded exactly when all pass, with every image accepted, the total size their sum and the client metadata spread over the computed fields |
| UploadRoute.LaterImagesIgnored | web_fronted/app/api/factures/route.ts:52-109 | once an image is rejected, the images after it do not change the answer |
| UploadRoute.MetadataFailure | web_fronted/app/api/factures/route.ts:169-187 | an error from parsing the metadata answers 408 exactly when its message mentions a timeout, and 500 otherwise |
| UploadRoute.MergeLookup | web_fronted/app/api/factures/route.ts:123-128 | after the spread, a key the client names has the client's value and every other key keeps the computed one |
| UploadRoute.ClientMetadataOverrides | web_fronted/app/api/factures/route.ts:123-128 | the forwarded metadata holds the image count, total size and timestamp unless the client's object names them, and then the client's values |
| UploadRoute.Put | web_fronted/app/api/factures/route.ts:189-242 | rate limit first, then a missing path, then a missing model type or data, then a dangerous path; the correction is forwarded exactly when all pass, to the path given |
| UploadRoute.ForwardedPathIsSafe | web_fronted/app/api/factures/route.ts:207-213 | a forwarded path contains none of "../", "..\\", "//" and "\\\\" |
| InvoiceType.PatternScore | backend_factures/app/services/processing_text.py:63-69 | a type's score never exceeds its number of groups |
| InvoiceType.NameScore | backend_factures/app/services/processing_text.py:63-69 | the same for the score the code computes |
| InvoiceType.Verdict | backend_factures/app/services/processing_text.py:72-76 | trip exactly when its score is strictly higher; ties, 0 to 0 included, go to weekend |
| InvoiceType.CountNames | backend_factures/app/services/processing_text.py:63-69 | the loop as written counts the group names found in the text |
| InvoiceType.CountGroups | backend_factures/app/services/processing_text.py:63-69 | the corrected loop counts the groups with a matching pattern |
| InvoiceType.DetectAsWritten | backend_factures/app/services/processing_text.py:34-76 | the code as written answers one of the two types, trip exactly when more trip names than weekend names occur in the lower-cased text |
| InvoiceType.Detect | backend_factures/app/services/processing_text.py:34-76 | the corrected detector answers one of the two types, trip exactly when more trip groups than weekend groups match |
| InvoiceType.ProcessExtractedText | backend_factures/app/services/processing_text.py:14-18 | blank text gives no type; any other text is classified by the detector as written: trip exactly when more trip group names than weekend group names occur |
| InvoiceType.LacksLetterAbsent | backend_factures/app/services/processing_text.py:63-69 | a word with a letter missing from the text does not occur in it |
| InvoiceType.NotSearched | backend_factures/app/services/processing_text.py:63-69 | a pattern whose first word has a letter missing from the text does not match it |
| InvoiceType.AbsentLetters | backend_factures/app/services/processing_text.py:63-69 | groups whose names and patterns all miss a letter of the text score 0 both ways |
| InvoiceType.NameScoreZero | backend_factures/app/services/processing_text.py:63-69 | groups whose names all miss a letter of the text score 0 as written |
| InvoiceType.PatternScoreFound | backend_factures/app/services/processing_text.py:63-69 | one matching group gives a score of at least 1 |
| InvoiceType.TaraLineLowered | backend_factures/app/services/processing_text.py:35 | the ticket line "Tara" lower-cases to "tara" |
| InvoiceType.WeekendAbsentFromTara | backend_factures/app/services/processing_text.py:37-46 | no weekend group occurs in "tara" |
| InvoiceType.RfcEmisorLacksTara | backend_factures/app/services/processing_text.py:38 | the rfc_emisor group misses a letter of "tara" |
| InvoiceType.FolioFiscalLacksTara | backend_factures/app/services/processing_text.py:39 | the same for folio_fiscal |
| InvoiceType.CfdiLacksTara | backend_factures/app/services/processing_text.py:40 | the same for cfdi |
| InvoiceType.ConceptosLacksTara | backend_factures/app/services/processing_text.py:41 | the same for conceptos |
| InvoiceType.NombreReceptorLacksTara | backend_factures/app/services/processing_text.py:42 | the same for nombre_receptor |
| InvoiceType.RfcReceptorLacksTara | backend_factures/app/services/processing_text.py:43 | the same for rfc_receptor |
| InvoiceType.MetodoPagoLacksTara | backend_factures/app/services/processing_text.py:44 | the same for metodo_pago |
| InvoiceType.MonedaLacksTara | backend_factures/app/services/processing_text.py:45 | the same for moneda |
| InvoiceType.TripNamesAbsentFromTara | backend_factures/app/services/processing_text.py:47-61 | no trip group name occurs in "tara" |
| InvoiceType.TripFoundInTara | backend_factures/app/services/processing_text.py:47-61 | the tare-weight pattern matches "tara" |
| InvoiceType.TaraMisclassified | backend_factures/app/services/processing_text.py:63-76 | a weighing ticket reading "Tara" is called weekly as written and trip when the patterns are used |
| OcrSelect.Pick | backend_factures/app/services/processing_images.py:189-234 | the selected text, confidence and word count come from the reading named as the source |
| OcrSelect.SelectBest | backend_factures/app/services/processing_images.py:187-235 | a missing or failed enhanced reading gives the original; a failed original gives the enhanced; with a word gap above 3 the wordier wins; otherwise the enhanced wins only with strictly higher confidence |
| OcrSelect.SelectionDominates | backend_factures/app/services/processing_images.py:206-235 | the chosen reading is never more than 3 words short of the other, is strictly wordier past the gap, and is at least as confident within it |
| OcrSelect.Successes | backend_factures/app/services/processing_images.py:323-338 | there are no more successes than results |
| OcrSelect.Failures | backend_factures/app/services/processing_images.py:323-338 | there are no more failures than results |
| OcrSelect.CountEnhanced | backend_factures/app/services/processing_images.py:332-342 | the enhanced count never exceeds the successes |
| OcrSelect.Partition | backend_factures/app/services/processing_images.py:323-338 | every result is either a success or a failure |
| OcrSelect.FormatResults | backend_factures/app/services/processing_images.py:323-342 | successes plus failures make the total; enhanced plus original selections make the successes; the word total is the sum over successes |
| PyConvert.TruncateTowardZero | backend_factures/app/utils/facture_weekend_processor.py:322 | `int` of a float rounds toward zero |
| PyConvert.KeepNumeric | backend_factures/app/utils/facture_weekend_processor.py:324 | only digits, points and minus signs remain, and text made of them is kept whole |
| PyConvert.SafeInt | backend_factures/app/utils/facture_weekend_processor.py:317-329 | ints are kept, booleans count as 1 and 0, floats truncated, strings read after dropping everything but digits, points and minus signs; unreadable input gives the fallback |
| PyConvert.SafeIntReadsIntegers | backend_factures/app/utils/facture_trip_processor.py:321-334 | the decimal text of an integer reads back as that integer |
| PyConvert.SafeIntIgnoresOtherCharacters | backend_factures/app/utils/facture_weekend_processor.py:324 | cleaning the text first does not change what is read |
| PyConvert.SafeDecimal | backend_factures/app/utils/facture_weekend_processor.py:306-315 | Decimals pass, ints and floats convert exactly, booleans give 0.00; any other value is read from its `str()` without commas, dollar signs and surrounding spaces: text that `Decimal` reads gives its value, blank or unreadable text gives 0.00 |
| PyConvert.SafeDecimalIgnoresSymbols | backend_factures/app/utils/facture_weekend_processor.py:312 | commas, dollar signs and surrounding spaces never change the amount read |
| WeekendProcessor.FirstMatchFrom | backend_factures/app/utils/facture_weekend_processor.py:177-183 | the result is the first pattern, in list order, that matches the text; none matches when it is absent |
| WeekendProcessor.FirstMatch | backend_factures/app/utils/facture_weekend_processor.py:242-246 | the loop finds that first match |
| WeekendProcessor.MapAll | backend_factures/app/utils/facture_weekend_processor.py:193-215 | a per-concept step succeeds on the list exactly when it succeeds on every concept, and gives each concept's result in order |
| WeekendProcessor.ForEach | backend_factures/app/utils/facture_weekend_processor.py:193-215 | the loop computes that list |
| WeekendProcessor.WithConcepts | backend_factures/app/utils/facture_weekend_processor.py:193-198 | putting back the concept list changes no other key |
| WeekendProcessor.UpdatedConcepts | backend_factures/app/utils/facture_weekend_processor.py:193-215 | a concept pass succeeds exactly when the concepts are dicts and every step succeeds; only the concepts change |
| WeekendProcessor.ConceptsOfWith | backend_factures/app/utils/facture_weekend_processor.py:193-198 | the updated concept list is the one read back |
| WeekendProcessor.UpdateConcepts | backend_factures/app/utils/facture_weekend_processor.py:193-215 | the method computes that pass |
| WeekendProcessor.FixTaxFolio | backend_factures/app/utils/facture_weekend_processor.py:164-169 | a UUID found in the text becomes the tax folio; without one nothing changes; no other key changes |
| WeekendProcessor.CsdOf | backend_factures/app/utils/facture_weekend_processor.py:180 | the certificate number is the match's first group, or the whole match for the literal pattern |
| WeekendProcessor.CsdStep | backend_factures/app/utils/facture_weekend_processor.py:171-184 | a missing or placeholder certificate number is replaced by the first pattern's number, or by "" when none matches; a present one is kept; nothing else changes |
| WeekendProcessor.CsdStepAsWritten | backend_factures/app/utils/facture_weekend_processor.py:171-184 | the code as written fails exactly when the matching pattern has no group, and otherwise agrees with the corrected step |
| WeekendProcessor.LiteralCsdRaises | backend_factures/app/utils/facture_weekend_processor.py:175 | text holding only the literal certificate number makes the code as written fail, where the corrected step stores that number |
| WeekendProcessor.ConceptCodes | backend_factures/app/utils/facture_weekend_processor.py:186-198 | without a concept line or without concepts nothing changes; otherwise only the concepts change |
| WeekendProcessor.ConceptCodesSet | backend_factures/app/utils/facture_weekend_processor.py:189-198 | after the pass every concept carries the product code and unit key of the concept line |
| WeekendProcessor.CodesSetEach | backend_factures/app/utils/facture_weekend_processor.py:193-198 | the code pass never fails on a list of dicts and leaves both codes in every concept |
| WeekendProcessor.ApplyConceptCodes | backend_factures/app/utils/facture_weekend_processor.py:186-198 | the method computes the concept-code pass, its failures included |
| WeekendProcessor.FixTypeUnit | backend_factures/app/utils/facture_weekend_processor.py:199-201 | afterwards the unit type is never "Tipo" or ""; other values are kept and nothing else changes |
| WeekendProcessor.DigitRun | backend_factures/app/utils/facture_weekend_processor.py:205 | the digit run after "SAC" is the longest prefix of digits |
| WeekendProcessor.SacCodesShape | backend_factures/app/utils/facture_weekend_processor.py:205 | every code found is "SAC" followed by at least one digit |
| WeekendProcessor.CountSacTrips | backend_factures/app/utils/facture_weekend_processor.py:202-211 | with a description mentioning SAC codes the trip count becomes the number of distinct codes; without SAC nothing changes; a non-text description fails |
| WeekendProcessor.DefaultTrips | backend_factures/app/utils/facture_weekend_processor.py:213-215 | a trip count of at most 0 becomes 1 and a positive one is kept; only that field changes |
| WeekendProcessor.TripCountStep | backend_factures/app/utils/facture_weekend_processor.py:202-215 | after both steps the trip count is positive and equals the distinct SAC codes whenever there are any |
| WeekendProcessor.ExpectedStopedTaxes | backend_factures/app/utils/facture_weekend_processor.py:228-233 | the expected retention is total minus subtotal minus transferred taxes, and needs all three to be numbers |
| WeekendProcessor.FixStopedTaxes | backend_factures/app/utils/facture_weekend_processor.py:228-251 | a positive retention found in the text wins; otherwise the expected value replaces the current one when positive and more than 0.01 away; otherwise nothing changes |
| WeekendProcessor.FixUrl | backend_factures/app/utils/facture_weekend_processor.py:252-255 | with a tax folio the QR URL becomes the SAT verification URL for it; without one nothing changes |
| WeekendProcessor.Corrected | backend_factures/app/utils/facture_weekend_processor.py:162-257 | the corrections as written (an `IndexError` from the literal certificate search gives no invoice); a corrected invoice always carries the verification URL of its tax folio |
| WeekendProcessor.Prepare | backend_factures/app/utils/facture_weekend_processor.py:162-215 | the method computes the folio, certificate and concept passes as written, failing where `match.group(1)` raises |
| WeekendProcessor.ApplyCorrections | backend_factures/app/utils/facture_weekend_processor.py:162-257 | the method computes the whole correction as written, including the certificate step that fails on the literal certificate number |
| WeekendProcessor.PreparedConcepts | backend_factures/app/utils/facture_weekend_processor.py:199-215 | after the concept passes every concept has a real unit type and a positive trip count |
| WeekendProcessor.PreparedAgrees | backend_factures/app/utils/facture_weekend_processor.py:171-184 | the first passes as written equal the intended ones (`PreparedIntended`, with `CsdStep`) whenever the certificate step does not raise, and give nothing where it does |
| WeekendProcessor.LiteralCsdDropsInvoice | backend_factures/app/utils/facture_weekend_processor.py:9-28 | a checked answer whose text has only the literal certificate number yields no weekly invoice at all |
| WeekendProcessor.PreparedFrame | backend_factures/app/utils/facture_weekend_processor.py:162-215 | the first passes change only the tax folio, the certificate number and the concepts |
| WeekendProcessor.CorrectedConcepts | backend_factures/app/utils/facture_weekend_processor.py:162-257 | the corrected concepts keep those properties |
| WeekendProcessor.CorrectedStopedTaxes | backend_factures/app/utils/facture_weekend_processor.py:228-251 | the retention of the corrected invoice follows the three-way rule computed from the input |
| WeekendProcessor.SameTaxFields | backend_factures/app/utils/facture_weekend_processor.py:228-233 | the expected retention depends only on the four tax fields |
| WeekendProcessor.WithDecimalsFrame | backend_factures/app/utils/facture_weekend_processor.py:286-289 | converting some fields leaves the others alone |
| WeekendProcessor.WithDecimalsValue | backend_factures/app/utils/facture_weekend_processor.py:286-289 | each converted field holds the Decimal of its value, "0.00" when absent |
| WeekendProcessor.ConvertDecimals | backend_factures/app/utils/facture_weekend_processor.py:286-289 | the loop computes that conversion |
| WeekendProcessor.DefaultDuties | backend_factures/app/utils/facture_weekend_processor.py:266-267 | the duty list is the given list, or [] when missing or not a list; nothing else changes |
| WeekendProcessor.MappedTrips | backend_factures/app/utils/facture_weekend_processor.py:269-272 | a missing trip count becomes 1; a present one goes through the integer converter with fallback 1 |
| WeekendProcessor.MappedDuty | backend_factures/app/utils/facture_weekend_processor.py:274 | the duty flag is truthy exactly when the given flag is or the duty list is not empty |
| WeekendProcessor.ConceptDefaultsFields | backend_factures/app/utils/facture_weekend_processor.py:265-274 | the concept defaults set exactly the duty list, the trip count and the duty flag |
| WeekendProcessor.MappedDuties | backend_factures/app/utils/facture_weekend_processor.py:280-284 | one mapped duty per duty |
| WeekendProcessor.MappedDutiesAt | backend_factures/app/utils/facture_weekend_processor.py:280-284 | the mapped duty at each position is the duty at that position with both amounts converted |
| WeekendProcessor.MappedDutiesAppend | backend_factures/app/utils/facture_weekend_processor.py:280-284 | mapping a concatenation of duty lists maps each list in turn |
| WeekendProcessor.MappedConcept | backend_factures/app/utils/facture_weekend_processor.py:265-284 | mapping a concept fails exactly when one of its duties is not a dict |
| WeekendProcessor.MappedConceptFrame | backend_factures/app/utils/facture_weekend_processor.py:265-284 | the other fields of a mapped concept are those after the defaults |
| WeekendProcessor.MappedConceptCounts | backend_factures/app/utils/facture_weekend_processor.py:269-274 | a mapped concept has the converted trip count and the combined duty flag |
| WeekendProcessor.MappedConceptAmounts | backend_factures/app/utils/facture_weekend_processor.py:276-279 | a mapped concept has its unit value and total as Decimals |
| WeekendProcessor.MappedConceptDuties | backend_factures/app/utils/facture_weekend_processor.py:280-284 | a mapped concept's duties are its duties with both amounts converted |
| WeekendProcessor.MappedDutiesConverted | backend_factures/app/utils/facture_weekend_processor.py:280-284 | each mapped duty is its source duty converted |
| WeekendProcessor.ConvertDuties | backend_factures/app/utils/facture_weekend_processor.py:280-284 | the loop computes that list |
| WeekendProcessor.MappedDutiesSnoc | backend_factures/app/utils/facture_weekend_processor.py:280-284 | one more duty adds its converted form at the end |
| WeekendProcessor.MapConcept | backend_factures/app/utils/facture_weekend_processor.py:265-284 | the method maps one concept |
| WeekendProcessor.EmissionDate | backend_factures/app/utils/facture_weekend_processor.py:291-300 | a falsy emission date becomes None; a string with T or slashes normalised is parsed, and None when it does not parse; a truthy non-string fails |
| WeekendProcessor.DefaultUrl | backend_factures/app/utils/facture_weekend_processor.py:301-302 | a missing QR URL is filled in from the tax folio; a present one is kept |
| WeekendProcessor.MappedTail | backend_factures/app/utils/facture_weekend_processor.py:291-302 | the last steps fail exactly when the emission date fails |
| WeekendProcessor.Mapped | backend_factures/app/utils/facture_weekend_processor.py:259-304 | mapping needs every concept to map |
| WeekendProcessor.MapAllSnoc | backend_factures/app/utils/facture_weekend_processor.py:265-284 | one more concept adds its mapped form at the end |
| WeekendProcessor.MapTransportData | backend_factures/app/utils/facture_weekend_processor.py:259-304 | the method computes the mapping |
| WeekendProcessor.FinishMapping | backend_factures/app/utils/facture_weekend_processor.py:286-304 | the method computes the amounts, date and URL steps |
| WeekendProcessor.MappedTailFrame | backend_factures/app/utils/facture_weekend_processor.py:291-302 | the last steps touch only the emission date and the QR URL |
| WeekendProcessor.WithMappedConceptsFrame | backend_factures/app/utils/facture_weekend_processor.py:262-289 | storing the concepts and amounts touches nothing else |
| WeekendProcessor.MappedFrame | backend_factures/app/utils/facture_weekend_processor.py:259-304 | mapping changes only the concepts, the four amounts, the emission date and the QR URL |
| WeekendProcessor.MappedConceptsEach | backend_factures/app/utils/facture_weekend_processor.py:265-284 | the mapped concept list has one mapped concept per input concept, in order |
| WeekendProcessor.MappedConceptList | backend_factures/app/utils/facture_weekend_processor.py:262-284 | the mapped invoice stores that list |
| WeekendProcessor.WithMappedConceptsStored | backend_factures/app/utils/facture_weekend_processor.py:262-284 | the list stored is the mapped concepts |
| WeekendProcessor.WithMappedConceptsAmount | backend_factures/app/utils/facture_weekend_processor.py:286-289 | each invoice amount is its Decimal, "0.00" when absent |
| WeekendProcessor.InvoiceFieldsDistinct | backend_factures/app/utils/facture_weekend_processor.py:286 | the four invoice amount names are distinct |
| WeekendProcessor.MappedAmounts | backend_factures/app/utils/facture_weekend_processor.py:286-289 | the mapped invoice holds each amount as a Decimal |
| WeekendProcessor.MappedEmission | backend_factures/app/utils/facture_weekend_processor.py:291-300 | the mapped emission date is None or a date-time |
| WeekendProcessor.TailEmission | backend_factures/app/utils/facture_weekend_processor.py:291-300 | the last steps leave the emission date None or a date-time |
| WeekendProcessor.MappedUrl | backend_factures/app/utils/facture_weekend_processor.py:301-302 | a mapped invoice whose URL was missing or right carries the verification URL of its folio |
| WeekendProcessor.TailUrl | backend_factures/app/utils/facture_weekend_processor.py:291-302 | the last steps, given the folio and URL of the input, leave a URL that matches the folio |
| WeekendProcessor.CheckedAnswer | backend_factures/app/utils/facture_weekend_processor.py:9-20 | processing goes on exactly when the text is not blank and the AI answer is a non-empty dict with an issuer RFC and a tax folio |
| WeekendProcessor.WeekendInvoiceUrl | backend_factures/app/utils/facture_weekend_processor.py:9-28 | every processed weekly invoice carries the verification URL of its tax folio |
| WeekendProcessor.ProcessWeekendInvoice | backend_factures/app/utils/facture_weekend_processor.py:9-28 | the method computes the pipeline as written, and a result implies the checks passed |
| TripProcessor.FieldGroupsDisjoint | backend_factures/app/utils/facture_trip_processor.py:183-219 | the string, int, float and date field lists share no name |
| TripProcessor.SafeFloat | backend_factures/app/utils/facture_trip_processor.py:308-319 | numbers convert to their value; blank or unreadable text and other values give 0.0 |
| TripProcessor.SafeFloatIgnoresSymbols | backend_factures/app/utils/facture_trip_processor.py:314 | commas, dollar signs and surrounding spaces never change the amount read |
| TripProcessor.AssignAllValue | backend_factures/app/utils/facture_trip_processor.py:189-212 | after a field loop every listed field holds its computed value |
| TripProcessor.AssignAllFrame | backend_factures/app/utils/facture_trip_processor.py:189-212 | a field loop leaves unlisted keys alone |
| TripProcessor.AssignFields | backend_factures/app/utils/facture_trip_processor.py:189-212 | the loop computes that assignment |
| TripProcessor.StringField | backend_factures/app/utils/facture_trip_processor.py:189-195 | a text field is always a stripped string: "" for a missing or None value, the stripped text of a string |
| TripProcessor.FilledNet | backend_factures/app/utils/facture_trip_processor.py:215-216 | on floats the net weight is filled in exactly when it is 0 and both gross and tare are not 0, and then it is gross minus tare |
| TripProcessor.FirstParseIsFirst | backend_factures/app/utils/facture_trip_processor.py:299-306 | the parsed date comes from the first format that parses; none parses exactly when the result is absent |
| TripProcessor.FlexibleDate | backend_factures/app/utils/facture_trip_processor.py:272-306 | falsy values give no date, a date-time is kept, and anything else is parsed from its stripped text by the first matching format |
| TripProcessor.ParseFlexibleDate | backend_factures/app/utils/facture_trip_processor.py:272-306 | the loop computes that date |
| TripProcessor.ParsedMatchesMembers | backend_factures/app/utils/facture_trip_processor.py:263-268 | a date is kept exactly when one of the matches parses to it |
| TripProcessor.FoundDatesMembers | backend_factures/app/utils/facture_trip_processor.py:261-268 | a date is collected exactly when some pattern's match parses to it with that pattern's format |
| TripProcessor.ExtractedDatesMembers | backend_factures/app/utils/facture_trip_processor.py:245-270 | the backup dates are in ascending order and are exactly the dates parsed from the four patterns' matches |
| TripProcessor.ExtractAllDates | backend_factures/app/utils/facture_trip_processor.py:245-270 | the nested loop computes those dates |
| TripProcessor.FallbackBounds | backend_factures/app/utils/facture_trip_processor.py:229-239 | with no backups the fallback is now; otherwise recibes_trip gets the latest backup and the other fields the earliest |
| TripProcessor.OriginalText | backend_factures/app/utils/facture_trip_processor.py:222 | a missing original text counts as "" |
| TripProcessor.MapToPydanticFormat | backend_factures/app/utils/facture_trip_processor.py:175-243 | the method computes the mapping |
| TripProcessor.AssignDates | backend_factures/app/utils/facture_trip_processor.py:224-241 | the date loop stores each date field's parsed value or its fallback |
| TripProcessor.WithNetWeightFrame | backend_factures/app/utils/facture_trip_processor.py:215-216 | the net-weight rule touches no other key |
| TripProcessor.TripMappedFrame | backend_factures/app/utils/facture_trip_processor.py:175-243 | every key but the net weight and the dates is as the field loops left it |
| TripProcessor.TripStrings | backend_factures/app/utils/facture_trip_processor.py:189-195 | each of the 13 text fields is present and stripped |
| TripProcessor.TripInts | backend_factures/app/utils/facture_trip_processor.py:198-201 | each int field is the converted value, with 0 as default and fallback |
| TripProcessor.ScalarAmounts | backend_factures/app/utils/facture_trip_processor.py:204-212 | each float field holds its converted amount after the loops |
| TripProcessor.TripAmounts | backend_factures/app/utils/facture_trip_processor.py:204-212 | each float field other than the net weight keeps its converted amount in the result |
| TripProcessor.TripNetWeight | backend_factures/app/utils/facture_trip_processor.py:215-216 | the result's net weight is gross minus tare when the converted net is 0 and both are non-zero, and the converted net otherwise |
| TripProcessor.NetOfAmounts | backend_factures/app/utils/facture_trip_processor.py:215-241 | the net-weight rule survives the date loop |
| TripProcessor.ScalarWeights | backend_factures/app/utils/facture_trip_processor.py:204-212 | the three weights hold their converted amounts before the rule |
| TripProcessor.NetAfterDates | backend_factures/app/utils/facture_trip_processor.py:215-241 | the same, stated on the three weights |
| TripProcessor.DateFieldsExclude | backend_factures/app/utils/facture_trip_processor.py:219 | the net weight is not a date field |
| TripProcessor.NetWeightRule | backend_factures/app/utils/facture_trip_processor.py:215-216 | the rule sets the net weight to gross minus tare exactly in its case and otherwise changes nothing |
| TripProcessor.NetWeightValue | backend_factures/app/utils/facture_trip_processor.py:215-216 | the net weight after the rule, in terms of the three weights |
| TripProcessor.TripDates | backend_factures/app/utils/facture_trip_processor.py:224-241 | each date field holds its parsed date or its fallback among the backup dates of the original text |
| TripProcessor.TripDateWithoutText | backend_factures/app/utils/facture_trip_processor.py:222-239 | without an original text, an unparsable date field becomes the current time |
| TripProcessor.FoundNothing | backend_factures/app/utils/facture_trip_processor.py:261-268 | no matches give no backup dates |
| TripProcessor.CheckedTripAnswer | backend_factures/app/utils/facture_trip_processor.py:9-23 | processing goes on exactly when the text is not blank and the AI answer is a non-empty dict with a business name |
| TripProcessor.ProcessTripInvoice | backend_factures/app/utils/facture_trip_processor.py:9-31 | the method computes the pipeline as written, and a result implies the checks passed |
| Calendar.SortAscending | backend_factures/app/utils/facture_trip_processor.py:270 | sorting gives an ascending permutation of the dates |
| Calendar.InsertAscending | backend_factures/app/utils/facture_trip_processor.py:270 | insertion keeps the order and adds exactly the new date |
| Calendar.BeforeIsStrictTotalOrder | backend_factures/app/services/file_manager_service.py:448 | date-time comparison is a strict total order |
| FileManager.Field2 | backend_factures/app/services/file_manager_service.py:240 | a two-digit field writes numbers below 100 as two digits that read back |
| FileManager.ValidFolderPrefix | backend_factures/app/services/file_manager_service.py:432-434 | anything after a valid stamp keeps a name valid, because the check looks at the start only |
| FileManager.ParseFolderName | backend_factures/app/services/file_manager_service.py:436-437 | a name parses only when it is exactly 19 characters and names a real date and time |
| FileManager.FolderNameRoundTrip | backend_factures/app/services/file_manager_service.py:239-240 | a folder named after a date-time from year 1000 on is valid and parses back to that date-time |
| FileManager.EarlyYearsInvalid | backend_factures/app/services/file_manager_service.py:432-434 | a folder named after a year before 1000 is not taken for a date folder |
| FileManager.ParsedOrNow | backend_factures/app/services/file_manager_service.py:454-483 | a date-time is kept, falsy values give now, anything else is parsed by the first of nine formats, and now when none applies |
| FileManager.ParseDateTime | backend_factures/app/services/file_manager_service.py:454-483 | the method computes that date |
| FileManager.ConceptsMentionWitness | backend_factures/app/services/file_manager_service.py:112-116 | the concept scan finds the code exactly when some concept's description contains it, with every earlier concept readable and not containing it |
| FileManager.MentionIsInData | backend_factures/app/services/file_manager_service.py:109-119 | a folder's data mentions the code only when its invoice data has the code in the general description or in a concept description |
| FileManager.FirstNameWhereIsFirst | backend_factures/app/services/file_manager_service.py:91-125 | the scan returns the first entry passing the test, and nothing exactly when none passes |
| FileManager.WeekendFolderIsFirst | backend_factures/app/services/file_manager_service.py:91-125 | the weekend folder found is the first folder whose leading date is not before the trip's day and whose data mentions the code |
| FileManager.FindWeekendFolder | backend_factures/app/services/file_manager_service.py:85-129 | a missing company folder gives nothing; otherwise the loop returns that first matching folder |
| FileManager.TripPlacement | backend_factures/app/services/file_manager_service.py:47-83 | a missing code is an error; otherwise the trip folder is the date and the code, placed in the matching weekend folder of the company if there is one, and in the temporary folder otherwise |
| FileManager.CollectedMembers | backend_factures/app/services/file_manager_service.py:445-451 | a folder is collected exactly when it is a directory with a valid date name inside the range, both ends included |
| FileManager.NewestCons | backend_factures/app/services/file_manager_service.py:452 | a folder no older than the rest can go first |
| FileManager.InsertNewest | backend_factures/app/services/file_manager_service.py:452 | insertion keeps newest-first order and adds exactly the new folder |
| FileManager.NewestFirst | backend_factures/app/services/file_manager_service.py:452 | sorting gives a newest-first permutation |
| FileManager.SearchByDateRange | backend_factures/app/services/file_manager_service.py:439-453 | the search returns the folders in range, newest first |
| FileManager.SearchAsWritten | backend_factures/app/services/file_manager_service.py:445-447 | the code as written fails exactly when some directory looks valid but does not parse as a full stamp |
| FileManager.SuffixedFolderBreaksSearch | backend_factures/app/services/file_manager_service.py:445-447 | one folder named "2025-01-01_10-00-00_copia" makes the code as written fail, where the corrected search returns nothing |
| FileManager.SearchAsWrittenAgrees | backend_factures/app/services/file_manager_service.py:439-453 | without such a folder the code as written and the corrected search agree |
| FileManager.StampedDate | backend_factures/app/services/file_manager_service.py:398-405 | a date-time is kept, a falsy non-string gives now, and any other truthy non-string fails |
| FileManager.WeekendFolderName | backend_factures/app/services/file_manager_service.py:396-410 | a stamp that cannot be read gives a name from the current time |
| FileManager.TripFolderName | backend_factures/app/services/file_manager_service.py:412-428 | a date that cannot be read gives a name from the current time |
| FileManager.NewFolderName | backend_factures/app/services/file_manager_service.py:384-394 | an unknown invoice type gives a name from the current time |
| FileManager.WeekendNameListed | backend_factures/app/services/file_manager_service.py:396-407 | a weekly invoice renamed after its emission stamp gets a valid date folder that parses back to the stamp |
| FileManager.TripNameStable | backend_factures/app/services/file_manager_service.py:412-425 | a corrected trip with a code gets the same folder name as when it was filed |
| FileManager.TripNameWithoutCode | backend_factures/app/services/file_manager_service.py:424-425 | a corrected trip without a code is named after its date and "trip" |
| FileManager.CorrectInvoice | backend_factures/app/services/file_manager_service.py:332-382 | a missing folder and a missing file are errors; the folder is renamed exactly when the new name differs, is not taken and the rename succeeds, and then the new name is reported; otherwise the folder keeps its name |
| FileManager.CorrectionSaves | backend_factures/app/services/file_manager_service.py:350-352 | the saved file holds the corrected data, the correction time and the corrected flag, and every other key as stored before |

## Left out

- The AI calls, the OCR service, the backend forward and the secure-fetch client are network I/O. Their answers are inputs.
- The scheduler thread, the parallel processing and the server lifespan are concurrency, and are not part of this model.
- Image enhancement, the averaging and rounding of OCR confidence, and any float arithmetic are left out. Confidence is only compared, and floats are taken as the reals they denote.
- The unit-value division in the weekly mapper (facture_weekend_processor.py:216-227) is float and Decimal arithmetic and is not modelled. The weekly model skips that pass.
- Library parsers and regex engines are parameters: JavaScript `new Date` and `Number`, Python `strptime`, `fromisoformat`, `Decimal` and `float`, the UUID, CSD, concept, retention and backup-date patterns. So is case folding under `re.IGNORECASE`.
- Clocks are parameters. The date-only round trip through `new Date` in the leaf editor holds only in UTC, so only the date-and-time round trip is stated: `LeafEditor.UneditedSaveKeepsDateTime`.
- The Pydantic models that validate the mapped dicts are not part of this model. A mapped dict is the result.
- `TripProcessor.SafeFloat`: `float(str)` is a parameter, so the contract says nothing about the value of readable text beyond cleaning.
- `TripProcessor.FilledNet`: the rule is stated for float weights, which is all the float converter produces.
- File system effects are left out: creating folders, copying images, saving and deleting files. Listings, existence checks and stored JSON are inputs. A failed `json.dump` is not modelled.
- `get_date_folder_contents` is not part of this model. Every folder in range is taken to have contents.
- `organize_invoice` and the weekly filing in file_manager_service.py are left out. They only choose a folder from `_create_date_based_folder_name` and then write files.
- Date comparisons between aware and naive date-times raise in Python. The model has no time zones.
- Error messages of the file manager are error kinds, without their text.
- JavaScript object key order puts integer-like keys first. The model keeps plain insertion order.
- In the editors, shared references between the old and new values are not modelled, since values are immutable.
- The rate limiter is a verdict given to the routes. The base64 encoding of uploads is left out.
- Rendering, the clipboard copy and its timer are presentation. This includes the peso formatting of captions that name a currency in the leaf editor.
- The model reads text as ASCII. Python's `\d` also matches other Unicode decimal digits, and the members below do not:
- PyConvert.KeepNumeric: keeps only the ASCII digits 0-9, so Arabic-Indic digits in an amount are dropped, where `\d` would keep them.
- WeekendProcessor.DigitRun and WeekendProcessor.SacCodes: count and collect only ASCII digit runs.
- FileManager.IsValidDateFolder: checks an ASCII stamp, so a folder named with Arabic-Indic digits such as "٢٠٢٥-٠١-٠١_١٠-٠٠-٠٠" is not listed, where `re.match` with `\d` would accept it.
- PyConvert.SafeInt: Python returns a boolean as the boolean itself. The model has one integer type and gives 1 or 0, which compare and add the same way.
- PyConvert.SafeDecimal: `Decimal` also reads "NaN" and "Infinity", which a real number cannot hold. The model treats that text as unreadable and gives 0.00.
- PyConvert.SafeIntReadsIntegers: Python converts through `float`, which is exact only for integers up to 2^53 in magnitude. The model takes floats as exact reals, so the lemma holds in Python only within that range.
- The weekly pipeline (`WeekendProcessor.Prepared` and the members built on it) and `InvoiceType.ProcessExtractedText` model the code as written. The intended behaviour is in `WeekendProcessor.PreparedIntended` and `InvoiceType.Detect`, with the link proved in `WeekendProcessor.PreparedAgrees` and the Findings below.
- Helpers without a row are definitions used by the rows above: text functions, dict access, JSON access and sorting steps.

## Findings

| source | as written | input that shows it | evidently intended | confidence | as-written member | corrected member |
|---|---|---|---|---|---|---|
| web_fronted/lib/utils.ts:153-158 | `holder in table` also sees members inherited from Object.prototype, so the label is a function | a field named "constructor" on a trip invoice | "" for every name that is not a table key | not executed | Labels.ConstructorKeyIsNotALabel | Labels.FormatHolder |
| backend_factures/app/services/processing_text.py:63-69 | the loop iterates over the dict's keys, so the group names such as "peso_tara" are searched and the regex lists are never used | OCR text "Tara" | the type whose patterns match more groups, trip here | not executed | InvoiceType.TaraMisclassified | InvoiceType.Detect |
| backend_factures/app/utils/facture_weekend_processor.py:172-181 | the third certificate pattern has no group, so `match.group(1)` raises and the whole weekly invoice is dropped | text containing "00001000000718612524" and no other certificate line, with no certificate in the AI answer | store the matched number | not executed | WeekendProcessor.LiteralCsdDropsInvoice | WeekendProcessor.CsdStep |
| backend_factures/app/services/file_manager_service.py:445-447 | `re.match` accepts any name that begins with a stamp, then `strptime` on the full name raises out of the whole search | a company folder containing "2025-01-01_10-00-00_copia" | skip names that are not exactly a stamp | not executed | FileManager.SuffixedFolderBreaksSearch | FileManager.SearchByDateRange |
