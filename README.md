# DataMorpher cleaning and type detection, modelled in Dafny

This project models the two parts of DataMorpher that hold its logic.

The first is the cleaner, `clean_data` in `datamorpher/cleaner.py`. It does the following, in order:

1. It drops duplicate rows and counts them.
2. It tries to convert every `string` or `mixed` column, first to numbers and then to dates:
   - a direct numeric parse comes first;
   - `_words_to_num` reads the number words among the cells left over;
   - `pd.to_datetime` with `strftime("%Y-%m-%d")` handles dates.
3. It fills the remaining gaps, with the mean for integer and floating columns and with the mode for string, categorical and boolean columns.
4. It reports what it did in an `info` record with the fields `duplicates`, `imputed` and `invalid`.

The second is the type detector, `convert.detect_types` in `datamorpher/converter.py`. It runs two passes:

- `_infer_column_type` applies rules on the column's name first. If no name rule applies, it looks at a sample of the first 20 non-missing values, rendered as text, and tests them against:
  - boolean tokens;
  - the eight `_DATE_FORMATS`;
  - a numeric shape;
  - a currency shape.
- `_refine_inferred_types` then revises some of those verdicts. It can turn an integer into floating, integer or floating into currency, and a string into a date, a location or a product name.

Modules:

| file | module | what it holds |
|---|---|---|
| `wrappers.dfy` | `Wrappers` | `Option` |
| `text.dfy` | `Text` | `str.lower()` on ASCII, Python whitespace, `str.split()`, substring and suffix tests |
| `frames.dfy` | `Frames` | cells, tables and columns; the pandas calls taken as given (`Pandas`); `drop_duplicates`, `mean`, `mode`, `fillna`, `dropna().astype(str).head(k)` |
| `number_words.dfy` | `WordNumbers` | `_NUMBER_WORDS` and `_words_to_num` |
| `patterns.dfy` | `Patterns` | the regular expressions of the type detector, as recognisers |
| `validation.dfy` | `Validation` | `_validate_numeric`, `_validate_dates` and the `%Y-%m-%d` rendering |
| `cleaner.dfy` | `Cleaner` | `clean_data` |
| `converter.dfy` | `Converter` | `_DATE_FORMATS`, `_infer_column_type`, `_refine_inferred_types`, `detect_types`, `_looks_like_date` |

A table is a sequence of column labels and a sequence of rows of cells. A cell is `Missing` (NaN, None or NaT), `Num(real)` or `Text(string)`.

The pandas routines whose internals are not modelled are fields of the datatype `Frames.Pandas`. Every property below holds for every choice of them. They are:

- `infer_dtype`;
- `to_numeric` on one string;
- `to_datetime` on a series;
- `to_datetime` with an explicit format;
- `astype(str)` of a number, which sees the whole series because the text depends on its dtype;
- `is_float_dtype`.

The model follows the code as written:

- Gaps in integer and floating columns are filled with the mean, and "mean" is recorded (`datamorpher/cleaner.py:41-43`). `tests/test_cleaner.py:18` expects "median" instead.
- `_words_to_num` knows only the 28 words of `_NUMBER_WORDS` and adds them up (`datamorpher/cleaner.py:52-97`). It has no multipliers, no "point" and no "and". The `_words_to_num_extended` that `tests/test_cleaner.py:64-76` calls is not defined in `datamorpher/cleaner.py`.
- A column is converted to numbers as soon as one cell converts (`datamorpher/cleaner.py:106-109`).
- The date invalid count is `parsed.isna().sum()`, which includes the cells that were missing to begin with (`datamorpher/cleaner.py:117`).
- The comments beside the product patterns name "iPhone 14" and "MacBook Pro" (`datamorpher/converter.py:197-198`), but neither matches its pattern: a capital inside a word has no `\b` before it. The model follows the patterns.
- `clean_data` returns only `duplicates`, `imputed` and `invalid` (`datamorpher/cleaner.py:13`). `tests/test_cleaner.py:3-11` and `tests/test_cleaner.py:43` use `_normalize_units`, `_validate_column_semantics`, `_extract_textual_date`, `_is_product_name`, `_normalize_booleans_extended` and `info["warnings"]`, none of which `datamorpher/cleaner.py` defines.

## Model

| member | source | states |
|---|---|---|
| Cleaner.CleanData | datamorpher/cleaner.py:11-49 | the column labels and their order are kept; the result has exactly as many rows as `drop_duplicates` keeps; `duplicates` is the number of rows dropped; every column is the deduplicated column converted and imputed; `imputed` and `invalid` hold an entry for exactly the columns that had something to record, under their own label and with that value, and no other key |
| Cleaner.CleanColumns | datamorpher/cleaner.py:22-48 | the column loop: the i-th result column is the i-th input column cleaned; `imputed` and `invalid` hold, under each column's label, the entry that column recorded, as storing the entries one column after another leaves them |
| Cleaner.CleanSeries | datamorpher/cleaner.py:23-48 | one pass of the loop body: conversion, then imputation on the dtype that conversion leaves |
| Cleaner.PromoteSeries | datamorpher/cleaner.py:23-38 | the conversion step as the loop performs it agrees with `Promote`, whose meaning `PromoteSpec` states |
| Cleaner.PromoteSpec | datamorpher/cleaner.py:25-38 | only `string` and `mixed` columns are converted, and other columns come back unchanged with their dtype; numbers are tried first, and a converted column holds at least one number and has dtype floating; dates are tried only when no cell converted to a number; a column that converts to neither stays as it was; an invalid count is recorded only when it is positive |
| Cleaner.ImputeSeries | datamorpher/cleaner.py:40-48 | the imputation step as the loop performs it agrees with `Impute`, whose meaning `ImputeSpec` states |
| Cleaner.ImputeSpec | datamorpher/cleaner.py:40-48 | a column is imputed only when it has a gap, and otherwise is returned unchanged; "mean" is recorded exactly for integer and floating columns with a gap; "mode" exactly for string, categorical and boolean columns with a gap and at least one value; present cells are never changed; date columns and other dtypes are never imputed |
| Cleaner.MeanImputeFills | datamorpher/cleaner.py:41-43 | mean imputation writes the mean into every gap; it leaves no gap exactly when the column holds a number to average |
| Cleaner.ModeImputeFills | datamorpher/cleaner.py:44-48 | mode imputation leaves no gap and fills each gap with a value of the column that is at least as frequent as any other |
| Cleaner.CleanedRowsMayRepeat | datamorpher/cleaner.py:15-48 | duplicates are dropped before conversion and imputation, so the cleaned table can hold equal rows again: the rows (NaN) and (2.0) of a floating column both become (2.0) |
| Cleaner.RecordOfSpec | datamorpher/cleaner.py:30-48 | with distinct column labels, a dictionary filled column by column (`info[...][col] = ...`) holds exactly the columns that had a value, each with its own value |
| Frames.Dedup | datamorpher/cleaner.py:16 | `drop_duplicates()` keeps no more rows than it is given, keeps every distinct row, adds none, and leaves no two rows equal |
| Frames.DedupKeepsFirstOrder | datamorpher/cleaner.py:16 | the kept rows stand in the order of their first occurrences |
| Frames.DedupRemovesRepeats | datamorpher/cleaner.py:15-17 | the number of rows dropped is the number of rows that repeat an earlier row |
| Frames.ColumnMean | datamorpher/cleaner.py:42 | `mean()` has a value exactly when the column holds a number |
| Frames.MeanWithin | datamorpher/cleaner.py:42 | the mean lies within any bounds that hold for all the column's numbers |
| Frames.ColumnMode | datamorpher/cleaner.py:45-47 | `mode(dropna=True)` is empty exactly when the column has no value; otherwise its first entry is a present value of the column that is at least as frequent as any other |
| Frames.FillMissing | datamorpher/cleaner.py:40-48 | `fillna(v)` writes `v` into the gaps and keeps every other cell |
| Frames.PresentIndices | datamorpher/converter.py:96 | the index `dropna()` keeps: strictly increasing positions of present cells, every present cell's position among them, and as many as `notna().sum()` counts |
| Frames.Sample | datamorpher/converter.py:96 | `dropna().astype(str).head(k)` has min(k, number of present cells) entries, empty exactly when k is 0 or the column has no value; its m-th entry renders the m-th present cell in column order |
| Frames.ToNumeric | datamorpher/cleaner.py:102 | `to_numeric(errors="coerce")` keeps NaN as NaN and numbers as they are |
| Frames.ToDatetime | datamorpher/cleaner.py:114 | `to_datetime(errors="coerce")` turns NaN into NaT |
| WordNumbers.WordsToNum | datamorpher/cleaner.py:84-97 | `_words_to_num` with its loop and early return answers `WordsValue`: nothing for a value that is not text or holds no token, nothing when some token is not a number word, otherwise the sum of the tokens' values |
| WordNumbers.WordsIgnoreCase | datamorpher/cleaner.py:88 | upper- and lower-case spellings read the same |
| WordNumbers.WordsHyphenIsSpace | datamorpher/cleaner.py:88-89 | a hyphen separates words exactly as a space does |
| WordNumbers.WordsAdd | datamorpher/cleaner.py:92-97 | two readable texts joined by a space or a hyphen read as the sum of their values |
| WordNumbers.WordsUnknownSpoils | datamorpher/cleaner.py:93-95 | one unknown token anywhere makes the whole text unreadable |
| WordNumbers.WordsBlank | datamorpher/cleaner.py:88-91 | a text holds no token exactly when it is made only of whitespace and hyphens, and then it reads as nothing |
| WordNumbers.TwentyEight | datamorpher/cleaner.py:52-97 | "twenty-eight" reads as 28 |
| Validation.ValidateNumeric | datamorpher/cleaner.py:100-109 | answers (None, 0) exactly when no cell converted, directly or from words; otherwise answers the converted column and the number of present cells that did not convert, which is at most the number of present cells |
| Validation.CountConversions | datamorpher/cleaner.py:106-108 | the loop counts no converted cell exactly when none converted, and counts the present cells that did not convert |
| Validation.DirectParseWins | datamorpher/cleaner.py:102-105 | a cell the direct parse converted keeps that value, and the words never overwrite it |
| Validation.WordsFillGaps | datamorpher/cleaner.py:103-105 | a cell the direct parse left NaN takes its number-word reading, or stays NaN |
| Validation.NumericInvalidAtMostPresent | datamorpher/cleaner.py:108 | the numeric invalid count is at most the number of present cells |
| Validation.NumericKeepsMissing | datamorpher/cleaner.py:102-108 | a missing cell stays missing and is not counted as invalid |
| Validation.ValidateDates | datamorpher/cleaner.py:112-118 | answers None exactly when nothing parsed, and then a count of 0; otherwise answers a column of the same length that is NaN exactly where parsing failed; the count is the number of NaN cells, at least the number missing to begin with, and less than the column length |
| Validation.DateInvalidCountsMissing | datamorpher/cleaner.py:115-117 | the date invalid count includes every originally missing cell and excludes at least one parsed cell |
| Validation.DateCellReadsBack | datamorpher/cleaner.py:118 | every parsed cell is written as text that reads back as the date pandas parsed |
| Validation.IsoDate | datamorpher/cleaner.py:118 | `strftime("%Y-%m-%d")` writes ten characters in the shape `\d{4}-\d{2}-\d{2}` |
| Validation.IsoDateRoundTrip | datamorpher/cleaner.py:118 | reading the `%Y-%m-%d` text of a date gives the date back |
| Validation.IsoDateInjective | datamorpher/cleaner.py:118 | different dates are written differently |
| Validation.DateColumnIsIso | datamorpher/cleaner.py:118 | every present cell of a date-converted column begins with an ISO date |
| Patterns.DecimalTextIsDecimal | datamorpher/converter.py:127 | every run of digits, with or without a point and a fraction, matches `-?\d+(\.\d+)?` |
| Patterns.DecimalIsDecimalText | datamorpher/converter.py:127 | conversely, every unsigned match is a run of digits with an optional point and fraction |
| Patterns.UnsignedNumericIsCurrency | datamorpher/converter.py:127-139 | every unsigned text of the numeric shape also has the currency shape |
| Patterns.SignedIsNotCurrency | datamorpher/converter.py:127-139 | a leading minus rules out the currency shape |
| Patterns.TextualDateAtIsMatch | datamorpher/converter.py:181 | the recogniser for `[A-Za-z]{3,9}\s+\d{1,2},?\s+\d{4}` accepts at a start exactly when a matcher free to stop each repeat at any allowed length finds a match there: the letter run from the start is 3 to 9 long and is followed by spaces, one or two digits, an optional comma, spaces and four digits |
| Patterns.WordNumberAtIsMatch | datamorpher/converter.py:197 | the recogniser for `\b[A-Z][a-z]+\s+\d+\b` accepts at a start exactly when the backtracking reading matches there: a word boundary, a capital, lower-case letters, spaces and digits that end a word |
| Patterns.TwoCapitalWordsAtIsMatch | datamorpher/converter.py:198 | the recogniser for `\b[A-Z][a-z]+\s+[A-Z][a-z]+\b` accepts at a start exactly when the backtracking reading matches there |
| Patterns.CodeAtIsMatch | datamorpher/converter.py:199 | the recogniser for `\b[A-Z]+\d+\b` accepts at a start exactly when the backtracking reading matches there: a word boundary on both sides, capitals, then digits |
| Patterns.SearchesMatchBacktracking | datamorpher/converter.py:178-202 | `str.contains` with the textual-date and the three product patterns holds exactly when the backtracking reading matches at some start |
| Patterns.IsoDateIsYearFirst | datamorpher/converter.py:180 | a text that starts with an ISO date holds `\d{4}[/-]\d{2}[/-]\d{2}` |
| Patterns.SlashDatesExample | datamorpher/converter.py:179-180 | "03/04/2021" is day-first and not year-first; "2020/07-08" is year-first and not day-first, since either separator may stand in either place |
| Patterns.TextualDateExample | datamorpher/converter.py:181 | "Feb 20, 2023" holds a textual date |
| Patterns.LongMonthExample | datamorpher/converter.py:181 | "Septembers 5 2023" has no match at its first letter, ten letters being too many, but has one from the second |
| Patterns.WordNumberExample | datamorpher/converter.py:197 | "Series 7", the comment's example, is a capitalised word and a number |
| Patterns.TwoCapitalWordsExample | datamorpher/converter.py:198 | "Nike Air", the comment's example, is two capitalised words |
| Patterns.CodeExamples | datamorpher/converter.py:199 | "BMW X5" and "Audi A4", the comment's examples, hold a model code |
| Patterns.MixedCaseExamples | datamorpher/converter.py:197-198 | "iPhone 14" does not hold a capitalised word and a number, and "MacBook Pro" does not hold two capitalised words, although the comments name them |
| Converter.FormatsMatching | datamorpher/converter.py:117-121 | the format count is at most the number of formats, and is positive exactly when some format parses more than half of the sample |
| Converter.CountDateMatches | datamorpher/converter.py:117-124 | the `date_matches` loop counts the formats of `_DATE_FORMATS` that parse more than half of the sample; it is positive exactly when one of them does |
| Converter.InferColumnType | datamorpher/converter.py:70-143 | the decision chain with its early returns answers `InferredType` |
| Converter.IdentifierComesFirst | datamorpher/converter.py:76-77 | a name ending in "id" in any case is an identifier, whatever else it holds and whatever the values |
| Converter.NameTermsComeNext | datamorpher/converter.py:79-81 | otherwise a name/title/product/model term gives "string", whatever date or price term follows and whatever the values |
| Converter.DateNamesIgnoreValues | datamorpher/converter.py:83-91 | otherwise a date/time/created/updated term gives "date" whatever the values |
| Converter.PriceNamesAreCurrency | datamorpher/converter.py:93-94 | otherwise a price/cost/amount/fee term gives "currency" |
| Converter.EmptyColumnIsString | datamorpher/converter.py:96-143 | a column with no values, whose name decides nothing, is "string" |
| Converter.BooleanContentSpec | datamorpher/converter.py:96-114 | the sample is "boolean" exactly when at least half of it are boolean tokens after lower-casing; an empty sample is not, because its mean is NaN |
| Converter.DateContentSpec | datamorpher/converter.py:113-124 | the content is "date" exactly when it is not boolean and some format parses more than half the sample |
| Converter.NumericContentSpec | datamorpher/converter.py:113-136 | "integer" or "floating" exactly when the boolean check and every date format fail and more than half of the sample has the numeric shape; then "integer" exactly when every parsed value is whole, and "floating" exactly when some parsed value is not |
| Converter.CurrencyContentSpec | datamorpher/converter.py:113-140 | "currency" exactly when the boolean, date and numeric checks fail and more than a fifth of the sample has the currency shape |
| Converter.PlainStringContentSpec | datamorpher/converter.py:113-143 | "string" exactly when none of the boolean, date, numeric and currency checks passes |
| Converter.NumbersCountAsCurrency | datamorpher/converter.py:127-139 | for a sample without signs, the currency count is at least the numeric count |
| Converter.RefineColumn | datamorpher/converter.py:159-204 | the loop body, with its successive overwrites, answers `RefinedType` |
| Converter.RefineTypes | datamorpher/converter.py:146-206 | the keys are unchanged; "product_name" is a string; every other entry is revised from the type it had on entry |
| Converter.InferAllTypes | datamorpher/converter.py:56-57 | the first loop gives every column label, and only those, its `_infer_column_type` verdict |
| Converter.DetectTypes | datamorpher/converter.py:52-61 | the keys are exactly the column labels, and each column gets the refined version of its first-pass type |
| Converter.CountMatchingExtremes | datamorpher/converter.py:113 | a mask that holds everywhere counts the whole sample; a count of 0 means the mask holds nowhere |
| Converter.DatePatternNeedsAMatch | datamorpher/converter.py:177-184 | the date check of the refinement fails unless some sampled value holds one of the three date patterns; an empty sample fails it |
| Converter.IsoSampleHasDatePattern | datamorpher/converter.py:177-184 | a non-empty sample of values that all start with an ISO date passes the date check |
| Converter.ProductPatternNeedsAMatch | datamorpher/converter.py:195-204 | the product check of the refinement fails unless some sampled value holds one of the three product patterns; an empty sample fails it |
| Converter.CodeSampleHasProductPattern | datamorpher/converter.py:195-204 | a non-empty sample of values that all hold a model code passes the product check |
| Converter.RefineKeepsOthers | datamorpher/converter.py:162-204 | identifier, currency, date, boolean, location and product-name verdicts pass the refinement untouched |
| Converter.ProductNameStaysString | datamorpher/converter.py:150-157 | "product_name" always ends as a string |
| Converter.IntegerRefinement | datamorpher/converter.py:162-172 | an integer column becomes currency if its name has a currency term; otherwise it becomes floating exactly when it has a float dtype and a value that is not whole; otherwise it stays integer |
| Converter.FloatingRefinement | datamorpher/converter.py:169-172 | a floating column becomes currency exactly when its name has a currency term |
| Converter.StringRefinementOrder | datamorpher/converter.py:174-204 | for a string column a product-name match overrides a location term, which overrides a date match, because every rule tests the original type |
| Converter.CurrencyRefinementUnreachable | datamorpher/converter.py:169-172 | a first-pass integer or floating verdict never has a currency term in its name, so the currency rule of the refinement never fires inside `detect_types` |
| Converter.CurrencyFromFirstPassOnly | datamorpher/converter.py:52-61 | `detect_types` says "currency" exactly when the first pass did |
| Converter.ProductNameIsNamed | datamorpher/converter.py:79-81 | "product_name" holds the name term "name" and does not end in "id" |
| Converter.DetectedIdentifier | datamorpher/converter.py:76-77 | `detect_types` reports a name ending in "id" as an identifier |
| Converter.DetectedDateName | datamorpher/converter.py:83-91 | `detect_types` reports a date-term name, with no earlier name rule, as a date |
| Converter.EmptyLooksLikeDate | datamorpher/converter.py:64-67 | `_looks_like_date` holds for a column with no values |
| Converter.ValidatedDatesLookLikeDates | datamorpher/converter.py:64-67 | every column `_validate_dates` produces looks like dates |

## Left out

- File reading and writing (`convert.read`, `convert.write`, `_read_json`, `_flatten`), the Streamlit app, the command-line entry point and the Markdown reporter are not part of this model. They are I/O and presentation.
- The internals of `infer_dtype`, `to_numeric`, `to_datetime` (with and without a format), `astype(str)` of numbers and `is_float_dtype` are parameters, fields of `Frames.Pandas`. Properties hold for every choice of them. The model assumes only the following:
  - missing values stay missing;
  - numbers pass through `to_numeric` unchanged;
  - parsed dates are valid calendar dates in years 1000-9999.
- Frames.Sample and Converter.InferredType: a column's storage dtype is not part of the model. `astype(str)` sees the series and the position, so one column may render its numbers as "1" or as "1.0". But two columns with the same cells get the same text. An int64 column [1, 0] and a float64 column [1.0, 0.0] are therefore one column here, although pandas renders them "1", "0" (boolean) and "1.0", "0.0" (integer). `infer_dtype` and `is_float_dtype` are functions of the cells for the same reason.
- Numbers are exact reals, not IEEE doubles. NaN is the `Missing` cell; infinities, rounding and `float(x).is_integer()` on huge values are not modelled.
- The ratio thresholds are compared exactly as fractions. For samples of at most 20 values this gives the same answers as the floating-point `mean()`.
- Frames.ColumnMode: pandas sorts the modes and takes the first. The model takes the earliest most frequent value in the column, and its contract promises only a most frequent value.
- Frames.ColumnMean: averages the numbers of the column. pandas raises when a column of dtype integer or floating still holds text, and that error is not modelled.
- `str.lower()`, `\d`, `\w`, `[A-Z]` and `[a-z]` are read on ASCII. `\s` and `str.split()` use Python's whitespace.
- In `_infer_column_type`, the two regex checks of lines 84-90 are not modelled, because every path through them returns "date".
- Converter.NumericContentSpec: the `try`/`except` around lines 130-136 is not modelled. `to_numeric(errors="coerce")` and `float` of a number do not raise there.
- Converter.RefinedType: reads `float(x).is_integer()` only on number cells. A column that `is_float_dtype` accepts holds no text.
- `pd.to_numeric` is applied cell by cell in `_validate_numeric`. Pandas' whole-series parse gives the same per-cell answers under `errors="coerce"`.
- Cleaner.CleanData, Cleaner.CleanColumns, Converter.InferAllTypes and Converter.DetectTypes: the dictionaries `info["imputed"]`, `info["invalid"]` and the one `detect_types` returns are Dafny maps. Their keys and values are modelled, but not the column order in which Python keeps the keys and the reporter prints them.
- Column labels are assumed distinct (`Frames.WellFormed`). With repeated labels, `df[col]` returns a frame, not a column.
- Behaviours that the tests expect but the code does not have are not modelled:
  - median imputation;
  - hundred/thousand/point number words;
  - unit, currency and boolean normalisation;
  - semantic warnings;
  - the seven helpers the tests import.
