# SNPcap genotype tools, modelled in Dafny

This project models two command-line scripts of a small genotyping toolkit:

- **SNP_concordance.py** compares two PLINK datasets. Each dataset is a `.map` file of SNP
  coordinates and a `.ped` file of per-sample genotypes.
  - Every SNP gets a coordinate key `chrom.pos`.
  - Genotypes become allele pairs, stored per sample.
  - For each sample of the first dataset, each SNP (except the `0.0` placeholder) is looked up in
    the second dataset. The two genotypes are then classified as concordant, discordant or
    ignored (missing data), or the SNP is counted as not found.
  - The script prints one summary line per sample: total positions, concordance rate, ignored
    count and not-found count.
- **gtvalues2plink.py** converts a GATK VariantsToTable report into a PLINK `.ped`/`.map` pair.
  - The report has CHROM and POS columns, then GT, GQ, RGQ and DP for each sample.
  - A call's genotype is kept only when its quality values pass the `-minGQ`, `-minRGQ` and
    `-minDP` thresholds.
  - The output file names carry a tag built from the thresholds.

## How the model is built

- **Inputs.** The inputs are the files' lines, already split at whitespace (`seq<seq<string>>`).
- **Outputs.**
  - The concordance report is the sequence of summaries it prints, plus the exception that ended
    the run, if any.
  - The converter's output is the two file names and the two sequences of lines written.
- **Exceptions.** Every exception the scripts can raise is an `Err` value of the shared
  `Results.Failure` type. The Python operations they use are in module `Text`:
  - `str.split`, `str.join` and `str.strip`;
  - `str <`, `int()` and `str(int)`;
  - extended slices and `list.index`.
- **Loops.** Each loop of the scripts is a `method` with a `while` loop. It is proved equal to a
  recursive specification function that describes the work still to do. The properties are
  lemmas about those functions:
  - `MakeCoordList`, `MakeGenoDict`, `CountSample` and `ConcordanceReport` (concordance);
  - `AppendHeaderSamples`, `ReadValues`, `FilterRow`, `RunLines`, `PedOutput` and `MapOutput`
    (converter).
- **Dictionary order.** Python dictionaries iterate in insertion order. The `.ped` dictionary is
  therefore a `GenoDict`: the keys in first-insertion order, next to the map of entries.
- **`None` comparisons.** These follow Python 3. Comparing `None` with an int, or with `None`,
  raises `TypeError`. This happens for an `NA` value checked against a threshold, and for
  `DP >= minDP` when `-minDP` is not given.
- **`sample_genotype`.** This variable of the converter outlives the loops: it is not reset per
  sample or per row. The model carries it as `Carried`, which is either `Unbound` or the genotype
  assigned last.
  - A call that fails the inner GQ/RGQ/DP test therefore takes over the previous call's genotype.
  - If that happens before any assignment, the script raises `NameError`.

Three behaviours of the code worth knowing:

- A `.ped` line only needs two fields. A line of 2 to 7 fields gives an empty genotype list, and
  an odd trailing allele token is dropped by `zip`. Neither is an error.
- Giving no thresholds does not drop every call. Under Python 3, `DP >= None` raises `TypeError`.
- The output base removes the last seven characters of the input path, that is `.values` of
  `x.gt.values`, not `.gt.values`.

## Model

| member | source | states |
|---|---|---|
| SnpConcordance.MakeCoordList | SNP_concordance.py:29-35 | one key per `.map` line, in line order, key k being field 0 + "." + field 3 of line k; ValueError exactly when some line does not have four fields |
| SnpConcordance.PairAllelesShape | SNP_concordance.py:48 | a `.ped` row of n ≥ 6 fields gives ⌊(n−6)/2⌋ allele pairs, pair j being fields 6+2j and 7+2j; a shorter row gives none |
| SnpConcordance.Put | SNP_concordance.py:49 | assigning a sample's list keeps the dictionary's key order valid and replaces that entry only; an existing key keeps its place in the order, a new key goes to the end |
| SnpConcordance.MakeGenoDict | SNP_concordance.py:43-51 | the loop builds the dictionary the specification function describes |
| SnpConcordance.GenoDictOrder | SNP_concordance.py:43-51 | when the `.ped` file parses, the dictionary's key order lists each distinct sample id (field 1) exactly once, and a key comes before another exactly as its first line comes before the other's first line |
| SnpConcordance.GenoDictOutcome | SNP_concordance.py:46-49 | reading a `.ped` file fails (IndexError) exactly when a line has fewer than two fields; otherwise its keys are exactly the lines' field 1 |
| SnpConcordance.LastRowWins | SNP_concordance.py:49 | when sample ids repeat, the entry is the allele pairs of the last line naming the sample |
| SnpConcordance.SortedAgree | SNP_concordance.py:61 | the sorted pairs are equal exactly when the two genotypes hold the same alleles |
| SnpConcordance.CompareGenotypes | SNP_concordance.py:53-66 | the result is 0, 1 or 2: 2 exactly when either genotype holds "0"; otherwise 1 exactly when both hold the same alleles, else 0 |
| SnpConcordance.CompareSymmetries | SNP_concordance.py:53-66 | the comparison is unchanged by swapping arguments or reordering the alleles of either pair, and a genotype without "0" is concordant with itself |
| SnpConcordance.TallyStep | SNP_concordance.py:86-106 | the sentinel changes no counter; a key missing from dataset 2 counts only as not found; a sample missing from dataset 2 is KeyError and a short genotype list IndexError; otherwise the genotype at the first matching index is compared and exactly one counter grows |
| SnpConcordance.SampleTallyAccounts | SNP_concordance.py:86-106 | after a sample, concordances + discordances + ignores + not found is the number of non-sentinel keys of dataset 1 |
| SnpConcordance.CountSample | SNP_concordance.py:79-106 | the counting loop computes the specified tally, whose counters add up to the non-sentinel keys |
| SnpConcordance.Summarize | SNP_concordance.py:110-111 | ZeroDivisionError exactly when there is nothing concordant or discordant; otherwise the rate c/(c+d) lies in [0,1] and the total c+d+i excludes not found |
| SnpConcordance.ReportShape | SNP_concordance.py:77-113 | summary j is that of the j-th key of the dataset-1 dictionary (its order of first appearance in the `.ped` file, by GenoDictOrder), for every sample up to the first that raises; that exception ends the report and no summary is printed for or after it |
| SnpConcordance.SummaryAccounts | SNP_concordance.py:84-111 | every printed summary's total plus not found equals the non-sentinel keys, and its rate has a positive denominator and is at most 1 |
| SnpConcordance.ConcordanceReport | SNP_concordance.py:77-113 | the loop over the samples gives the specified report, one summary per sample in order |
| SnpConcordance.RunConcordance | SNP_concordance.py:69-113 | the whole script: parse both datasets, a parse failure ending it before anything is printed, then the report |
| SnpConcordance.SelfConcordance | SNP_concordance.py:77-111 | a dataset with distinct keys compared with itself finds every SNP and is never discordant; when the report stops, it stops with ZeroDivisionError at a sample whose genotype at every non-sentinel SNP holds "0" |
| Text.Split | gtvalues2plink.py:52 | `split(c)` yields at least one piece and no piece holds c |
| Text.JoinSplitReplaces | gtvalues2plink.py:101 | splitting at '/' and joining with a tab replaces every '/' by a tab |
| Text.SplitJoin | gtvalues2plink.py:106-112 | splitting a tab-joined line gives back its fields when none holds a tab |
| Text.Strip | gtvalues2plink.py:58 | `strip(chars)` is the slice left after dropping every leading and trailing character of the set, and neither starts nor ends with one |
| Text.StrLessTotalOrder | SNP_concordance.py:61 | Python's ordering of strings is a strict total order |
| Text.IntToString | gtvalues2plink.py:34-36 | `int()` reads back what `str()` of an int writes |
| Text.StrideAt | SNP_concordance.py:48 | element k of `s[start::step]` is `s[start+step*k]`, and it has exactly the elements whose index is in range |
| Text.FirstOccurrencesOrder | SNP_concordance.py:49 | the keys of a dict filled from a sequence are its distinct values, each once, in the order of their first occurrence |
| Text.IndexOf | SNP_concordance.py:93 | `list.index` finds the first occurrence, and fails exactly when the value is absent |
| GtValues2Plink.CheckThresholds | gtvalues2plink.py:29-30 | the configuration error is raised exactly when one of minGQ and minRGQ is truthy and the other is not, a 0 counting as unset |
| GtValues2Plink.OutputBase | gtvalues2plink.py:33 | the base is the path without its last 7 characters, or empty for a shorter path |
| GtValues2Plink.ParamTagInjective | gtvalues2plink.py:34-36 | the tag `minGQ<v>-minRGQ<v>-minDP<v>` (None for unset) determines all three thresholds, so different settings name different files |
| GtValues2Plink.SampleNameShape | gtvalues2plink.py:52 | a sample name is the text after the header's last '/' and before the first '.' after it |
| GtValues2Plink.HeaderSamples | gtvalues2plink.py:51-52 | a header yields one name per 4th token from index 2, name k coming from token 2+4k |
| GtValues2Plink.AppendHeaderSamples | gtvalues2plink.py:51-52 | the loop appends exactly the header's sample names to the sample list |
| GtValues2Plink.MapRecordOf | gtvalues2plink.py:56-59 | the map record is the chromosome stripped of 'c', 'h', 'r', the unstripped chromosome + "." + pos, "0", and pos |
| GtValues2Plink.ParseQuality | gtvalues2plink.py:69-71 | "NA" is absent, any other token is its integer, and a token `int()` refuses is ValueError |
| GtValues2Plink.ParseQualityRoundTrip | gtvalues2plink.py:69-71 | a written integer parses back to itself and not to absent |
| GtValues2Plink.ParseCall | gtvalues2plink.py:62-72 | sample s takes columns 4s+2 to 4s+5, IndexError when the row is shorter; "./." is an absent genotype |
| GtValues2Plink.RowValuesShape | gtvalues2plink.py:61-72 | a row's values parse exactly when every sample's do; every sample then has an entry, and with distinct names it is the call in its own columns |
| GtValues2Plink.ReadValues | gtvalues2plink.py:61-72 | the loop builds the specified values dictionary, holding every listed sample |
| GtValues2Plink.FilterPolicy | gtvalues2plink.py:79-94 | with GQ/RGQ unset a call is kept iff DP ≥ minDP, else made missing; with GQ/RGQ set and minDP unset or 0 kept iff GQ ≥ minGQ or RGQ ≥ minRGQ; with all three set iff that and DP ≥ minDP; a call not kept in the last two cases keeps the previous `sample_genotype` |
| GtValues2Plink.FilterRaises | gtvalues2plink.py:79-91 | the filter raises only TypeError, exactly when a value it actually compares (after short-circuiting) is absent |
| GtValues2Plink.FilterExamples | gtvalues2plink.py:82-84 | a failing call takes over the previous sample's genotype, and stays unbound when there is none |
| GtValues2Plink.PlinkGenotype | gtvalues2plink.py:96-101 | NameError when `sample_genotype` was never assigned; an absent, empty or longer-than-3 genotype is "0\t0"; otherwise every '/' becomes a tab |
| GtValues2Plink.FilterRow | gtvalues2plink.py:74-103 | the loop over the samples filters and appends as the specification function says |
| GtValues2Plink.FilterFromGrows | gtvalues2plink.py:74-103 | a row appends exactly one genotype to each listed sample's list and adds no key |
| GtValues2Plink.StepLine | gtvalues2plink.py:46-103 | every listed sample keeps a genotype list across a line |
| GtValues2Plink.StepLineShape | gtvalues2plink.py:50-59 | a header appends its names, empties every list and leaves the map alone; a data row keeps the samples and appends exactly its own map record |
| GtValues2Plink.DataRowKeepsLockStep | gtvalues2plink.py:56-103 | with distinct names a data row keeps every genotype list as long as the map |
| GtValues2Plink.HeaderFirstLockStep | gtvalues2plink.py:42-103 | after a report whose only header comes first, with distinct names, there is one map record per data row and every genotype list has that length |
| GtValues2Plink.PedLineFields | gtvalues2plink.py:106-109 | a `.ped` line is the six columns 0, sample, 0, 0, 0, 0, then the genotypes, tab separated |
| GtValues2Plink.MapLineFields | gtvalues2plink.py:111-112 | a `.map` line read back at its tabs gives the record's four fields |
| GtValues2Plink.PedOutput | gtvalues2plink.py:106-109 | one `.ped` line per listed sample, in list order |
| GtValues2Plink.MapOutput | gtvalues2plink.py:111-112 | one `.map` line per map record, in order |
| GtValues2Plink.RunLines | gtvalues2plink.py:42-103 | the loop over the report's lines computes the state the specification function describes, stopping at the first line that raises |
| GtValues2Plink.ConvertReport | gtvalues2plink.py:29-112 | the whole script computes the specified output |
| GtValues2Plink.ConvertShape | gtvalues2plink.py:33-112 | a run names its files base_tag.ped/.map and writes one `.ped` line per sample and one `.map` line per data row, each `.ped` line carrying one genotype per `.map` line |

## Left out

- Command-line parsing, opening, reading and writing files, and `print` are not modelled. Inputs
  are the whitespace-split lines and outputs are strings. The files the converter opens before
  reading, and leaves truncated on a crash, are not modelled either.
- The concordance rate is kept as the exact pair (concordances, concordances + discordances),
  not as a float.
- The `something went wrong!` message is not modelled. Its branch is unreachable, because the
  comparison only returns 0, 1 or 2; `SnpConcordance.Record` leaves the counters unchanged there.
- Python 2, where `None` orders below every int, is not modelled; the model follows Python 3.
- Text.ParseInt: accepts an optional sign and ASCII digits only. The underscores, surrounding
  whitespace and non-ASCII digits that `int()` also accepts are not modelled.
- Text.StrLess: orders strings by code point, as Python does, but characters are Dafny `char`
  values rather than full Unicode code points.
- GtValues2Plink.ConvertReport: `line.strip().split()` is not modelled. The lines arrive already
  split, so the converter's output is not read back through whitespace splitting.
