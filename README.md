# UBL invoice builder — a Dafny model

This project models the core of the `ubl` Ruby gem. The gem builds PEPPOL /
UBL 2.1 invoices and credit notes, optionally in the Belgian UBL.BE flavour,
and validates them.

- **Builder state.** `UblBuilder` (`Builder` module) is a class whose fields
  are the builder's instance variables. `add_line` appends to the line
  sequence and recomputes both totals. The pure parts are modelled as functions:
  - rounding and number printing (`Numbers`);
  - tax categories (`TaxCategory`);
  - line arithmetic, sums and first-seen grouping by rate (`Lines`).
- **Serialisation.** Each `build_*` method becomes a function returning the
  elements it appends (`Serializer`). The XML document is an abstract element
  tree (`Xml`). The two `build_*` methods that loop also have a method form
  proved equal to the function.
- **`Invoice#build` and `CreditNote#build`** (`Ubl`). A build is a
  concatenation of seven sections under the root. `BuildDocument` performs
  the steps one at a time.
- **The stand-alone credit note** in `lib/credit_note.rb` is `CreditNoteFile`.
- **The validator** (`Validate`). An XSD stage short-circuits the Schematron
  stage. Failed asserts of the Schematron report are formatted into error
  lines, fatal ones first.

Conventions:

- Amounts are integers counting cents.
- `round(2)` is rounding to the nearest cent, halves away from zero.
- `sprintf("%.2f")` is `FormatCents`, which has the proved inverse
  `ParseCents`.
- The unformatted per-line tax amount of Belgian mode is `FloatText`, which
  prints the way `Float#to_s` does for such values.
- Dates are day numbers.
- `Date.today` is a constructor parameter.
- `Date#to_s` and the `to_s` of quantities and percentages are the abstract
  `Render` functions.
- `CUSTOMIZATION_ID`, `CUSTOMIZATION_UBL_BE`, `PROFILE_ID` and `UBL_BE` are
  declared but have unspecified values, because `lib/ubl/constants.rb` is not
  part of this model. No property depends on their values.

A party without a VAT id makes `build_party` call `gsub` on nil, which raises
an exception. The model returns `Failure(MissingVatId(role))` for the whole
build instead, and the supplier is checked first, as in the source.

## Model

| member | source | states |
|---|---|---|
| Numbers.RoundCents | lib/ubl/builder.rb:55-56 | the result is the nearest whole cent; a half cent rounds away from zero, for positive and negative values |
| Numbers.RoundCentsExact | lib/ubl/builder.rb:55-56 | rounding a value that is already whole cents returns it unchanged |
| Numbers.NatToString | lib/ubl/builder.rb:59 | `Integer#to_s`: a non-empty string of digits that starts with '0' only for zero; ParseNatToString and NatToStringInjective state that it is invertible |
| Numbers.ParseNatToString | lib/ubl/builder.rb:59 | the decimal line id reads back as the number it was made from |
| Numbers.NatToStringInjective | lib/ubl/builder.rb:59 | different positions give different id strings |
| Numbers.FormatCents | lib/ubl/builder.rb:157 | `sprintf("%.2f")` of an amount in cents; no contract of its own: FormatCentsRoundTrip and FormatCentsInjective state its properties |
| Numbers.FloatText | lib/ubl/builder.rb:161 | `to_s` of a float amount in cents; no contract of its own: FloatTextVersusFormat relates it to FormatCents |
| Numbers.FormatCentsRoundTrip | lib/ubl/builder.rb:157 | the `%.2f` text of an amount parses back to the same amount |
| Numbers.FormatCentsInjective | lib/ubl/builder.rb:249-252 | different amounts never print the same `%.2f` text |
| Numbers.FloatTextVersusFormat | lib/ubl/builder.rb:161 | the unformatted per-line tax text equals its `%.2f` text exactly when the cents are not a multiple of ten |
| TaxCategory.CategoryId | lib/ubl/builder.rb:199-212 | `get_tax_category_id`; no contract of its own: StandardExactly, NameRefinesId and Table state its properties |
| TaxCategory.CategoryName | lib/ubl/builder.rb:184-197 | `get_tax_category_name`; no contract of its own: NameRefinesId and Table state its properties |
| TaxCategory.StandardExactly | lib/ubl/builder.rb:199-212 | the category id is "S" exactly for 6, 12 and 21 (numbers or "n%" strings); every other rate, including 0, gets "Z" |
| TaxCategory.NameRefinesId | lib/ubl/builder.rb:184-212 | the name is "00" exactly when the id is "Z"; "01", "02" and "03" each hold for exactly one standard rate |
| TaxCategory.Table | lib/ubl/builder.rb:184-212 | the mapping on the listed rates, an unknown rate (99) and a non-matching string ("21.0%") |
| Lines.LineExtension | lib/ubl/builder.rb:55 | the line's extension amount, rounded to cents; no contract of its own: Numbers.RoundCents states the rounding |
| Lines.LineTax | lib/ubl/builder.rb:56 | the line's tax amount, rounded to cents; no contract of its own: Numbers.RoundCents states the rounding |
| Lines.NewLine | lib/ubl/builder.rb:58-67 | the appended line record; no contract of its own: Builder.UblBuilder.AddLine and Lines.IdsDistinct state its properties |
| Lines.SumExtension | lib/ubl/builder.rb:75 | the sum of the lines' extension amounts; no contract of its own: GroupTotals, GroupSums and Builder.UblBuilder.CalculateTotals state its properties |
| Lines.SumTax | lib/ubl/builder.rb:76 | the sum of the lines' tax amounts; no contract of its own: GroupTotals, GroupSums and Builder.UblBuilder.CalculateTotals state its properties |
| Lines.IdsDistinct | lib/ubl/builder.rb:59 | the ids of lines added one after another are pairwise distinct |
| Lines.SumExample | test/test_invoice.rb:37-42 | 10 × 100.00 and 1 × 500.00 at 21% give a tax total of 315.00 and a grand total of 1815.00 |
| Lines.FirstSeen | lib/ubl/builder.rb:221 | the distinct rates have no duplicates and hold the same values as the lines' rates |
| Lines.FirstSeenOrder | lib/ubl/builder.rb:221-223 | the groups come in the order in which their rates first occur among the lines |
| Lines.GroupByRate | lib/ubl/builder.rb:221 | `group_by` on the tax rate; no contract of its own: GroupByRateSpec, GroupAt and GroupTotals state its properties |
| Lines.GroupAt | lib/ubl/builder.rb:221 | group i holds the i-th distinct rate in first-seen order and exactly the lines with that rate |
| Lines.GroupByRateSpec | lib/ubl/builder.rb:221 | grouping gives one group per distinct rate, in first-seen order, and each group holds exactly the lines with that rate, in order |
| Lines.GroupTotals | lib/ubl/builder.rb:224-225 | the group tax sums add up to the sum over all lines, and so do the group extension sums |
| Lines.GroupSums | lib/ubl/builder.rb:224-225 | each group's sums are the sums over the lines carrying its rate |
| Builder.UblBuilder.constructor | lib/ubl/builder.rb:13-22 | Belgian mode holds exactly when the extension is `UBL_BE`; the due date is the issue date + 30; the currency is EUR; there are no lines and both totals are 0 |
| Builder.UblBuilder.AddSupplier | lib/ubl/builder.rb:32-41 | the supplier record holds the given fields; unset optional fields are nil |
| Builder.UblBuilder.AddCustomer | lib/ubl/builder.rb:43-52 | the customer record holds the given fields; unset optional fields are nil |
| Builder.UblBuilder.AddLine | lib/ubl/builder.rb:54-70 | exactly one line is appended and earlier lines are unchanged; its id is the old length + 1 and its amounts are the rounded extension and tax; the totals are the sums over all lines; well-formedness is preserved |
| Builder.UblBuilder.CalculateTotals | lib/ubl/builder.rb:74-78 | the tax total is the sum of line taxes; the legal monetary total is the extension sum plus the tax total |
| Builder.SumScenario | test/test_invoice.rb:30-42 | running the test's two `add_line` calls through the builder leaves totals of 315.00 and 1815.00 |
| Serializer.Namespaces | lib/ubl/builder.rb:24-30 | `namespaces`: the three root attributes in source order; no contract of its own: Ubl.CreditNoteNamespaces states how the credit note overrides it |
| Serializer.Header | lib/ubl/builder.rb:80-91 | `build_header` with the yielded nodes; no contract of its own: HeaderShape and Ubl.HeaderModes state its properties |
| Serializer.DocumentReferences | lib/ubl/builder.rb:93-112 | `build_document_reference`; no contract of its own: DocumentReferencesModes states its properties |
| Serializer.EndpointId | lib/ubl/builder.rb:123 | the VAT id with a leading run of letters removed; no contract of its own: EndpointIdDropsLetterPrefix and EndpointIdExample state its properties |
| Serializer.PartyBlock | lib/ubl/builder.rb:118-150 | `build_party`; no contract of its own: PartyShape and PostalAddressShape state its properties |
| Serializer.HeaderShape | lib/ubl/builder.rb:80-91 | the header is CustomizationID, ProfileID, ID (the invoice number), IssueDate and DueDate, then the yielded type code, then DocumentCurrencyCode and an OrderReference whose ID repeats the invoice number; only CustomizationID depends on Belgian mode |
| Serializer.DocumentReferencesModes | lib/ubl/builder.rb:93-112 | Belgian mode adds exactly one UBL.BE reference, placed before the PDF reference; the PDF reference is present exactly when a PDF is set |
| Serializer.EndpointIdDropsLetterPrefix | lib/ubl/builder.rb:123 | on a one-line VAT id, the EndpointID is the id with its maximal prefix of ASCII letters removed |
| Serializer.EndpointIdExample | lib/ubl/builder.rb:123 | "BE0123456749" gives the EndpointID "0123456749" |
| Serializer.PartyShape | lib/ubl/builder.rb:118-150 | a nil party emits nothing; a party without a VAT id fails; otherwise the party block holds EndpointID (scheme 0208, the stripped VAT id), PostalAddress only if an address is set, then PartyTaxScheme with the whole, unstripped VAT id as CompanyID and the VAT scheme, and PartyLegalEntity with the party name as RegistrationName |
| Serializer.PostalAddressShape | lib/ubl/builder.rb:125-134 | PostalAddress is emitted exactly when an address is set; inside it StreetName comes first, CityName and PostalZone appear only if set, and Country always ends it |
| Serializer.CategoryChildrenModes | lib/ubl/builder.rb:230-237 | Belgian mode inserts the category Name right after the ID and changes nothing else in the category |
| Serializer.SubtotalElement | lib/ubl/builder.rb:224-238 | one TaxSubtotal; no contract of its own: TaxTotalSpec, TaxSubtotalAt and SubtotalModes state its properties |
| Serializer.TaxTotal | lib/ubl/builder.rb:214-241 | `build_tax_total`; no contract of its own: TaxTotalSpec, TaxTotalShape, TaxSubtotalAt, TaxTotalModes and SubtotalsAddUp state its properties |
| Serializer.EmitSubtotals | lib/ubl/builder.rb:223-239 | the loop over the groups yields one TaxSubtotal per group, in group order |
| Serializer.EmitTaxTotal | lib/ubl/builder.rb:214-241 | the loop appends exactly the TaxTotal section |
| Serializer.TaxTotalSpec | lib/ubl/builder.rb:214-241 | TaxTotal is absent exactly when there are no lines; otherwise it holds the tax total and then one subtotal per distinct rate in first-seen order, each with the sums of that rate's lines and its category |
| Serializer.TaxTotalShape | lib/ubl/builder.rb:214-218 | with lines present there is one TaxTotal, holding the document tax total first and then one child per distinct rate |
| Serializer.TaxSubtotalAt | lib/ubl/builder.rb:221-239 | subtotal i is the subtotal of the i-th distinct rate (first-seen order) over exactly the lines with that rate |
| Serializer.SubtotalsAddUp | lib/ubl/builder.rb:218-229 | with the totals `calculate_totals` leaves, the subtotal tax amounts add up to the document's tax total |
| Serializer.MonetaryTotal | lib/ubl/builder.rb:243-254 | `build_monetary_total`; no contract of its own: MonetaryTotalSpec and MonetaryTotalModes state its properties |
| Serializer.MonetaryTotalSpec | lib/ubl/builder.rb:243-254 | LegalMonetaryTotal is absent exactly when there are no lines; otherwise TaxExclusiveAmount equals LineExtensionAmount, and TaxInclusiveAmount and PayableAmount both equal it plus the tax total |
| Serializer.InvoiceLineElement | lib/ubl/builder.rb:154-180 | one InvoiceLine, with six children in Belgian mode and five otherwise; InvoiceLineSpec and InvoiceLinesModes state its children |
| Serializer.InvoiceLines | lib/ubl/builder.rb:152-182 | `build_invoice_lines`; no contract of its own: EmitInvoiceLines, InvoiceLineElementsAt and InvoiceLinesModes state its properties |
| Serializer.EmitInvoiceLines | lib/ubl/builder.rb:152-182 | the loop appends one InvoiceLine per line, in order |
| Serializer.InvoiceLineElementsAt | lib/ubl/builder.rb:153 | element i of the lines section is the InvoiceLine of line i |
| Serializer.InvoiceLineSpec | lib/ubl/builder.rb:154-181 | an InvoiceLine holds ID (the line id), quantity, the formatted extension amount, the per-line TaxTotal in Belgian mode only, Item and Price, in that order |
| Serializer.InvoiceLinesModes | lib/ubl/builder.rb:152-182 | Belgian mode keeps the number and order of lines and each line's ID, quantity, amount and price; it adds the per-line TaxTotal with the unformatted tax amount, and inside the Item it keeps the name and adds the category Name right after the ClassifiedTaxCategory's ID, changing nothing else in the category |
| Serializer.SubtotalModes | lib/ubl/builder.rb:227-238 | a Belgian subtotal keeps the taxable amount, the tax amount and the category's ID and scheme, and adds only the category Name after the ID |
| Serializer.TaxTotalModes | lib/ubl/builder.rb:214-241 | Belgian mode keeps the TaxTotal's presence, its document tax amount and its number and order of subtotals; subtotal i is the Belgian and the standard subtotal of the same rate group |
| Serializer.MonetaryTotalModes | lib/ubl/builder.rb:243-254 | LegalMonetaryTotal does not depend on Belgian mode |
| Serializer.LiveBuilder | lib/ubl/builder.rb:54-78 | a builder driven only through its operations has totals equal to the sums over its lines, pairwise distinct line ids, subtotal taxes that add up to its tax total, and subtotal extensions plus the tax total that add up to its legal monetary total |
| Ubl.Merge | lib/ubl.rb:54 | `Hash#merge` of one pair; no contract of its own: MergeReplaces and MergeAppends state its properties |
| Ubl.MergeReplaces | lib/ubl.rb:54 | merging an existing key replaces its value in place |
| Ubl.MergeAppends | lib/ubl.rb:54 | merging a new key appends it at the end |
| Ubl.CreditNoteNamespaces | lib/ubl.rb:54 | the credit note overrides only `xmlns`, with the CreditNote-2 namespace, and keeps the cac and cbc prefixes and the key order |
| Ubl.Tree | lib/ubl.rb:20-35 | the document tree of either kind; no contract of its own: BuildSucceeds, TreeOrdered, TypeCodePlacement, TreeKindsDiffer, TreeModesSucceed and DocumentModes state its properties |
| Ubl.InvoiceTree | lib/ubl.rb:19-37 | the invoice tree; no contract of its own: DocumentsOrdered, InvoiceVersusCreditNote and BuildInvoice state its properties |
| Ubl.CreditNoteTree | lib/ubl.rb:52-70 | the credit-note tree; no contract of its own: DocumentsOrdered, InvoiceVersusCreditNote, BuildCreditNote and CreditNoteFile.Build state its properties |
| Ubl.BuildSucceeds | lib/ubl.rb:28-29 | a build succeeds exactly when each party is nil or has a VAT id; a failing supplier is reported before the customer |
| Ubl.TreeOrdered | lib/ubl.rb:22-33 | the root's children go header, references, supplier, customer, TaxTotal, LegalMonetaryTotal, InvoiceLines, whatever sections are empty |
| Ubl.DocumentsOrdered | lib/ubl.rb:19-70 | both invoices and credit notes have their sections in that order |
| Ubl.TypeCodePlacement | lib/ubl.rb:22-24 | the type code is the sixth child, between DueDate and DocumentCurrencyCode |
| Ubl.TreeKindsDiffer | lib/ubl.rb:19-71 | two kinds built from the same fields succeed or fail together and differ only in the type code and the UBL.BE description |
| Ubl.InvoiceVersusCreditNote | lib/ubl.rb:19-71 | an invoice is rooted at `Invoice` with type code 380 and "CommercialInvoice"; a credit note is rooted at `CreditNote` with 381 and "CreditNote"; everything else is equal |
| Ubl.HeaderModes | lib/ubl/builder.rb:80-91 | the Belgian and the standard header have eight elements each and differ only in the CustomizationID value |
| Ubl.TreeModesSucceed | lib/ubl.rb:19-36 | a build succeeds in Belgian mode exactly when it succeeds in standard mode, and fails with the same error |
| Ubl.TreeModes | lib/ubl.rb:19-36 | the Belgian sections are the standard ones with the CustomizationID value replaced, the UBL.BE reference inserted before the other references, and the Belgian TaxTotal and lines sections in place of the standard ones; the parties and LegalMonetaryTotal are unchanged; DocumentModes states this of the whole tree |
| Ubl.DocumentModes | lib/ubl.rb:19-36 | when the standard build succeeds, so does the Belgian one, and its root children are the standard ones with the CustomizationID value replaced, the UBL.BE reference put in front of the other references, and the Belgian TaxTotal and InvoiceLine sections; the rest of the header, the other references, both parties and LegalMonetaryTotal are the same |
| Ubl.BuildDocument | lib/ubl.rb:20-36 | the step-by-step build yields the section tree of the builder's current fields |
| Ubl.BuildInvoice | lib/ubl.rb:19-37 | `Invoice#build` yields the invoice tree, with an `Invoice` root, the namespace attributes and ordered sections |
| Ubl.BuildCreditNote | lib/ubl.rb:52-70 | `CreditNote#build` yields the credit-note tree, with a `CreditNote` root, the overridden namespace and ordered sections |
| Ubl.BuildTwice | lib/ubl.rb:19-37 | building assigns no field, so two builds in a row give the same result |
| CreditNoteFile.New | lib/credit_note.rb:5-7 | the argument has no default; Belgian mode holds exactly when it equals `UBL_BE`; otherwise the state is the builder's initial state |
| CreditNoteFile.Build | lib/credit_note.rb:9-27 | the tree has a `CreditNote` root, the CreditNote-2 namespace, type code 381 at the header's yield point and ordered sections, and is the same tree as the main file's credit note |
| Validate.NewlinesToSpaces | lib/ubl/validate.rb:62 | same length; each newline becomes a space and every other character is kept |
| Validate.Squeeze | lib/ubl/validate.rb:60 | the result has no two spaces in a row, is no longer than the input and starts with the same character |
| Validate.SqueezeSpaces | lib/ubl/validate.rb:60 | a run of one or more spaces squeezes to a single space |
| Validate.SqueezeAppend | lib/ubl/validate.rb:60 | squeezing works run by run: where two texts do not meet space to space, squeezing their concatenation concatenates their squeezed forms |
| Validate.SqueezeExample | lib/ubl/validate.rb:60 | "a  b" squeezes to "a b" |
| Validate.SqueezeKeepsNonSpaces | lib/ubl/validate.rb:60 | squeezing removes spaces only |
| Validate.SqueezeIdempotent | lib/ubl/validate.rb:60 | squeezing twice is the same as squeezing once |
| Validate.Strip | lib/ubl/validate.rb:62 | the result neither starts nor ends with whitespace |
| Validate.StripSlice | lib/ubl/validate.rb:62 | the result is a contiguous part of the input, and everything cut off is whitespace |
| Validate.StripKeeps | lib/ubl/validate.rb:62 | stripping a text without double spaces keeps it free of double spaces and adds no character |
| Validate.NormalizeText | lib/ubl/validate.rb:62 | the assert text joined, newlines turned to spaces, squeezed and stripped; no contract of its own: NormalizeTextClean states its properties |
| Validate.NormalizeTextClean | lib/ubl/validate.rb:62 | normalised assert text has no newline, no two spaces in a row and no whitespace at either end |
| Validate.ErrorLine | lib/ubl/validate.rb:63 | the interpolated error line; no contract of its own: ErrorLineParts states its parts |
| Validate.ErrorLineParts | lib/ubl/validate.rb:60-63 | an error line is flag, ": ", the text, a newline and seven spaces, then the squeezed test |
| Validate.FlagErrors | lib/ubl/validate.rb:57-66 | one line per assert carrying the flag, each starting with the flag and ": " |
| Validate.FlagErrorsAppend | lib/ubl/validate.rb:59 | errors keep document order: the errors of a concatenated report are the concatenated errors |
| Validate.FlagErrorsSingle | lib/ubl/validate.rb:59-63 | a single assert gives one line if its flag matches and none otherwise |
| Validate.GetSvrlErrors | lib/ubl/validate.rb:57-66 | the loop yields exactly the flag's error lines |
| Validate.SvrlErrors | lib/ubl/validate.rb:69-76 | the fatal lines then the warning lines; no contract of its own: ParseSvrlErrors and FatalBeforeWarnings state its properties |
| Validate.ParseSvrlErrors | lib/ubl/validate.rb:69-76 | the result is the fatal lines followed by the warning lines |
| Validate.FatalBeforeWarnings | lib/ubl/validate.rb:69-76 | all lines starting "fatal: " come before all lines starting "warning: ", and no fatal line follows a warning |
| Validate.XsdErrors | lib/ubl/validate.rb:36-47 | there are no errors exactly when validation ran clean; a missing schema gives only "XSD not found: <path>"; an exception gives only "XSD validation error: <msg>" |
| Validate.JoinPath | lib/ubl/validate.rb:15-20 | `File.join` of the library directory and a schema path; no contract of its own: SchemaChoice states its properties |
| Validate.SchemaChoice | lib/ubl/validate.rb:14-21 | the invoice and credit-note schema paths are different files, each ending in its own schema's name |
| Validate.SchematronRunner.Run | lib/ubl/validate.rb:49-55 | one run is logged with the path and the UBL.BE flag, and the errors are the parsed report for that path and flag |
| Validate.Validator.constructor | lib/ubl/validate.rb:9-12 | Belgian mode holds exactly when the extension is `UBL_BE`; Schematron is on unless it is turned off |
| Validate.Validator.Validate | lib/ubl/validate.rb:26-34 | XSD errors are returned as they are and Schematron does not run; with a clean XSD stage the result is the Schematron errors after exactly one run, or empty when Schematron is off |
| Validate.Validator.ValidateInvoice | lib/ubl/validate.rb:14-17 | `validate` against the Invoice 2.1 schema path |
| Validate.Validator.ValidateCreditNote | lib/ubl/validate.rb:19-22 | `validate` against the CreditNote 2.1 schema path |

## Left out

- Binary floating point. Quantities, prices and rates are exact reals, and amounts are exact cents.
  - Float drift in `round(2)` and in `Array#sum` is not modelled.
  - The test's exact-float comparison is not modelled either.
- `sprintf("%.2f", unit_price)` is modelled as rounding the price to the nearest cent with halves away from zero. On a binary float, `%.2f` rounds the stored value, so a price exactly halfway between cents can round the other way.
- Numbers.FormatCents: a negative amount that rounds to zero prints as "0.00"; C's `%.2f` prints "-0.00" for a negative float. Cents carry no sign of zero.
- Numbers.FloatText: matches `Float#to_s` only for amounts that a double tells apart to the cent. Every decimal with at most 15 significant digits survives the trip through a double, so amounts below 10^15 cents (10^13 units) are covered. Adjacent cent amounts stay distinct doubles up to about 2^46 units (7·10^13 units, 7·10^15 cents). Above that, two cent amounts can share a double and `Float#to_s` drops or changes the cents: 1000000000000000.01 prints "1000000000000000.0". From 10^16 units Ruby also switches to exponent notation.
- Numbers.FloatText: cents carry no sign of zero. A negative tax that rounds to zero is the float -0.0, and `(-0.001).round(2).to_s` is "-0.0", while `FloatText(0)` is "0.0".
- Lines.GroupByRate: treats rates 21 and 21.0 as one group. `group_by` keys an Integer and a Float apart.
- Nokogiri builder mechanics are not modelled: XML escaping, the UTF-8 declaration and `to_xml` pretty-printing are left out. The output is an element tree.
- PDF attachment: `File.binread`, `Base64.strict_encode64` and `File.basename` are left out. The encoded content and the file name are given strings (`Pdf`).
- `add_attachment` is not modelled. It refers to an undefined `content`, so it cannot run, and nothing calls it.
- `Date.today`, `Date#to_s` and `to_s` of quantities and percentages are parameters (`today`, `Render`). `Render.number` takes an exact real, so it prints an Integer and a Float of the same value alike. Ruby prints a quantity `21` as "21" and a rate `21.0` as "21.0"; this is the same Integer/Float distinction the `group_by` line leaves out.
- The values of `CUSTOMIZATION_ID`, `CUSTOMIZATION_UBL_BE`, `PROFILE_ID` and `UBL_BE` are left out. `lib/ubl/constants.rb` is not part of this model.
- `@attachments` is not modelled. Only `add_attachment` uses it.
- `validate` does not model the `File.read` of the document. XSD validation is an input function from schema path to `XsdOutcome`.
- The `docker run` command and its output are not modelled. The report it prints is the runner's `report`. Each run is logged with its path and UBL.BE flag, from which the `-e UBL_BE=true` option follows.
- SVRL parsing, `remove_namespaces!` and the XPath query are left out. The report is a sequence of `FailedAssert` in document order.
- `colorize` ANSI codes around the flag and the test are left out.
- A failed assert without a `test` attribute makes `squeeze` fail on nil. Here `test` is always a string.
- `Strip` removes leading NUL as well as trailing NUL, as `String#strip` does in current Ruby versions.
- test/validate.rb is not modelled separately. It duplicates the validator's logic with a fixed schema path, `puts` and `ARGV`.
- test/test_helper.rb and test/test_ubl.rb are not modelled. They only print and check the version.
- `add_payment_means` (test/test_invoice.rb:28) is not modelled. It is not in these sources.
- The test's `add_line` call with a `description:` keyword (test/test_invoice.rb:30) is not modelled. `add_line` (lib/ubl/builder.rb:54) takes only `name:`, `quantity:`, `unit_price:`, `tax_rate:` and `unit:`, so as written that call raises `ArgumentError` for the unknown keyword.
- `Ubl.validate_invoice` as called by the tests is not modelled. It is not in these sources. `Validator` models lib/ubl/validate.rb.
