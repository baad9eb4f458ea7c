# Sound-healing frequency server, modelled in Dafny

This project models the computational core of a small tool server for "healing"
sound frequencies (`server.py`). The core has three parts:

- **The reference table.** `WELL_TONE_FREQUENCIES` maps 25 names to frequencies.
  The model has the lookup by exact name, the five-way listing by name prefix
  or band name, and the chakra-only view.
- **The nine calculation functions.** These are the harmonic series, the
  Pythagorean ratio, Fibonacci scaling with clamping, the golden ratio, prime
  harmonics, the phi spiral, quantum levels, the fractal recursion and the
  square-root-of-two cascade. The model also has the combined frequency matrix
  that the dispatcher builds from three of them.
- **The dispatcher `call_tool`.** It maps an operation name and an arguments
  object to one of three outcomes:
  - a reply payload;
  - an error payload (unknown frequency name, unknown tool);
  - a fault the call raises (missing argument, argument of an unusable type,
    zero denominator, list index out of range).

## Modelling choices

- Frequencies are exact `real`s.
- The golden ratio and the square root of two are not rational, so they cannot
  be Dafny literals. They travel as an `Irrationals.Constants` value instead.
  Its `Valid()` predicate pins them down exactly:
  - phi > 1 and phi * phi == phi + 1;
  - sqrt2 > 0 and sqrt2 * sqrt2 == 2.
- JSON argument values are `Tools.Value`: int, float, bool, string, or list of
  ints. The arguments object is a map from names to values.
- `Tools.Decode` keeps the entries whose names some operation reads, keyed by
  the `Tools.Key` enumeration.
- Python's coercions are modelled where the code relies on them:
  - an int, a float or a bool is usable as a number;
  - an int or a bool is usable as a count or an index;
  - an `if` on a flag uses Python truthiness.
- Any other type in a numeric argument raises `MalformedArgument`, which
  stands for Python's `TypeError`. Python does not always raise here: see
  `Tools.MalformedBase` under "Left out".
- A float Fibonacci index is compared with the table's length before it is
  used as a subscript. At 12.0 or above it clamps to 144 like a whole index;
  below that the subscript raises.
- The matrix size is read only by the parts the flags switch on. With every
  part off any size value gives the empty matrix. With only the Fibonacci
  part on, a float size above 12 passes through `min(size, 12)` as the
  integer 12.
- Every argument a reply echoes (base, index, level, depth, steps, ratio
  terms, matrix flags) is echoed as sent. Python truthiness decides only
  which matrix parts are built.
- A required argument read with `arguments["…"]` raises `KeyError` when it is
  absent. This is modelled as the outcome `Raised(MissingArgument(name))`,
  naming the first absent argument in the order the handler reads them.
- Python list semantics are modelled exactly where the code exercises them:
  - a negative Fibonacci index counts from the end of the 12-entry table, and
    below -12 raises `IndexError`;
  - `primes[:size]` with a negative size drops elements from the end.
- The table follows `server.py:20-46`.

## Model

| member | source | states |
|---|---|---|
| WellTones.ViewSizes | server.py:20-46 | The categories hold 7 chakra, 9 solfeggio, 3 earth-resonance, 5 brainwave and 1 special entry, and these sizes sum to the table's 25 entries. |
| WellTones.TableNamesDistinct | server.py:20-46 | The 25 table names are pairwise distinct, so the table is a well-formed dictionary. |
| WellTones.Find | server.py:356-358 | A dictionary lookup succeeds exactly when the name is among the entries' names, and what it returns is stored under that name. |
| WellTones.FindDistinct | server.py:356-358 | With distinct names, looking up the i-th entry's name yields the i-th entry's value. |
| WellTones.LookupTabulated | server.py:356-358 | Every tabulated name is found with its own tabulated frequency. |
| WellTones.Select | server.py:383-389 | A category view keeps exactly the entries whose names satisfy the category's rule, and drops nothing else. |
| WellTones.SelectConcat | server.py:383-389 | Filtering a concatenation gives the concatenation of the filtered parts. |
| WellTones.ViewIsGroup | server.py:383-389 | Filtering the whole table by a category's rule gives that category's declared block, in table order. |
| WellTones.ViewsPartition | server.py:383-389 | Every table entry lies in some category, no entry lies in two, and nothing outside the table lies in any. |
| WellTones.GroupDistinct | server.py:20-46 | Within each declared block the names are distinct. |
| WellTones.GroupsApart | server.py:20-46 | No name appears in two different blocks. |
| Calculations.HarmonicSeries | server.py:49-51 | The series has max(count, 0) elements, and the n-th is the base times n + 1. |
| Calculations.HarmonicSeriesPrefix | server.py:49-51 | Asking for fewer harmonics gives a prefix of the longer series. |
| Calculations.PythagoreanRatio | server.py:54-56 | The ratio raises ZeroDivision exactly when the denominator is zero. Otherwise the result times the denominator equals the base times the numerator. |
| Calculations.FibonacciTableIsFib | server.py:61 | The 12 tabulated numbers are the first twelve Fibonacci numbers, starting 1, 1. |
| Calculations.FibonacciFrequency | server.py:59-64 | Indices 0 to 11 scale the base by Fib(index). Indices of 12 and above clamp to 144. Indices -12 to -1 count from the end. Below -12 the call raises IndexOutOfRange, and only there. |
| Calculations.GoldenRatioFrequency | server.py:67-70 | The result r satisfies r*r == base*r + base*base, so base : r is the golden section. For a positive base, r lies strictly between base and 2*base; for a negative base, the bounds are mirrored. |
| Calculations.PrimeHarmonics | server.py:73-75 | The output keeps the primes' length and order, and output i is the base times primes[i]. |
| Calculations.PrimeHarmonicsConcat | server.py:73-75 | Scaling a concatenated prime list gives the concatenation of the scaled parts. |
| Calculations.DefaultPrimesAreFirstTen | server.py:468 | The default list is strictly ascending and every entry is prime. A number below 30 is prime exactly when it is in the list. |
| Calculations.PhiSpiral | server.py:78-81 | The spiral has max(count, 0) elements, and the n-th is the base times phi^n. |
| Calculations.PhiSpiralRecurrence | server.py:78-81 | Consecutive spiral values differ by a factor of phi. Each value is the sum of the two before it, as Fibonacci numbers are. |
| Calculations.GoldenRatioOnSpiral | server.py:67-81 | The golden-ratio frequency is the second point of the phi spiral. |
| Calculations.QuantumLevelsAreSquareHarmonics | server.py:84-86 | Level n ≥ 1 gives the (n*n)-th harmonic of the base, consecutive levels are 2n+1 harmonics apart, and the level's sign does not matter. |
| Calculations.FractalTrail | server.py:89-96 | The loop's list has 1 + 2*depth values, and value j is given in closed form: base*2^i at j = 2i and base*2^(i+1)/phi at j = 2i+1. |
| Calculations.FractalRound | server.py:94-96 | One round maps base*2^d first to base*2^(d+1)/phi and then back up to base*2^(d+1). |
| Calculations.FractalFrequencies | server.py:89-97 | The result is strictly ascending with no duplicates, its values are exactly the trail's values, and it has at most 1 + 2*max(depth, 0) of them. |
| Calculations.FractalTrailSteps | server.py:89-96 | The trail strictly rises at every step for a positive base and strictly falls for a negative one. |
| Calculations.FractalShape | server.py:89-97 | Deduplication merges nothing unless the base is zero. A positive base gives the whole trail in order, a negative base gives it reversed, and a zero base gives [0]. |
| Calculations.ResonanceCascade | server.py:100-107 | The cascade has max(steps, 1) values and starts at the base. |
| Calculations.ResonanceCascadeStep | server.py:103-106 | Each later value is the previous one times sqrt2. |
| Calculations.ResonanceCascadeClosedForm | server.py:100-107 | Value i is the base times sqrt2^i. |
| Calculations.ResonanceCascadeOctave | server.py:100-107 | Every second step doubles the frequency, an octave per two steps. |
| Calculations.ResonanceCascadeThreeSteps | server.py:100-107 | Three steps from 1 Hz give [1, sqrt2, 2]. |
| Calculations.SlicePrefix | server.py:557 | The slice is a prefix of the list and never longer than it. A size from 0 to the length keeps that many elements, a larger size keeps the whole list, a size from -length to -1 drops that many from the end, and anything smaller gives []. |
| Calculations.FibonacciPart | server.py:551 | The Fibonacci part has max(min(size, 12), 0) elements, and element i is the base times the i-th Fibonacci number. |
| Calculations.FrequencyMatrix | server.py:549-562 | The matrix is strictly ascending, and a value is in it exactly when some enabled part contains it. |
| Calculations.FrequencyMatrixEmpty | server.py:549-562 | With all three parts switched off the matrix is empty. |
| SortedSets.SortedSet | server.py:97 | sorted(set(xs)) is strictly ascending, has exactly xs's values, and is no longer than xs. |
| SortedSets.SortedUnique | server.py:97 | Two strictly ascending lists with the same values are equal, so sorted(set(·)) is determined by the set of values alone. |
| SortedSets.SortedSetOfAscending | server.py:97 | sorted(set(xs)) of a strictly ascending list is the list itself. |
| SortedSets.SortedSetOfDescending | server.py:97 | sorted(set(xs)) of a strictly descending list is its reverse. |
| Tools.Decode | server.py:353 | An argument is visible to the operations exactly when the caller sent it under its JSON name, and it keeps the value sent. |
| Tools.Parse | server.py:356-580 | The chain of name comparisons selects an operation only under that operation's registered name, and selects none exactly when the name is registered for no operation. |
| Tools.ToolNameInjective | server.py:356-542 | No two operations share a registered name, so the comparison chain never depends on its order. |
| Tools.ParseRegistered | server.py:356-580 | A name selects an operation exactly when it is one of the 13 registered names. |
| Tools.UnknownToolReply | server.py:580-586 | An unregistered name gets the unknown-tool error naming it, whatever the arguments, and a registered name never does. |
| Tools.CallToolSelects | server.py:353-542 | Calling an operation by its registered name dispatches that operation on the decoded arguments. |
| Tools.FirstMissing | server.py:407-543 | No argument is reported missing exactly when all the required arguments are present. A reported argument is required and absent, and every required argument read before it is present. |
| Tools.Dispatch | server.py:407-543 | A call raises MissingArgument exactly when a required argument is absent, and it then names the first one the handler reads. Dispatch never yields the unknown-tool error. |
| Tools.MalformedBase | server.py:407-543 | For every operation that reads a base frequency, a base that is not a number makes the call raise. Apart from the Pythagorean and Fibonacci operations, which read the ratio or the index first, the fault is MalformedArgument("base_frequency"). |
| Tools.PythagoreanRatioFirst | server.py:54-56 | With a non-numeric base and a numeric ratio, a zero denominator raises ZeroDivision, since the ratio is divided first. Any other denominator leads to the base being rejected. |
| Tools.FibonacciIndexFirst | server.py:59-64 | With a non-numeric base, a whole index below -12 raises IndexOutOfRange and an unusable index is rejected before the base. The base is rejected exactly when the index would have been looked up successfully. |
| Tools.AbsentMeansDefault | server.py:357-547 | Leaving out any optional argument gives the same outcome as passing its default: "" for the name, 10 harmonics, the ten default primes, 10 spiral points, depth 5, 7 steps, all matrix flags true, matrix size 8. |
| Tools.RunAgrees | server.py:357-547 | A handler's outcome depends only on its required arguments and on the values its optional arguments are read as. |
| Tools.WellToneLookup | server.py:356-380 | A string name is answered with a frequency exactly when it is tabulated, and then with its tabulated value. Otherwise the answer is the not-found error listing every name. |
| Tools.WellToneTabulated | server.py:356-367 | Every tabulated name answers with its own frequency. |
| Tools.WellToneNotFound | server.py:356-380 | A name that is neither a string nor a list (a number, say) is never found: the error quotes it back, and its list of available names holds all 25 table names, each exactly once. |
| Tools.MissingNameNotFound | server.py:357-380 | Without a frequency name the lookup searches for "", which no entry has, so the call gets the not-found error. |
| Tools.EmptyNameUntabulated | server.py:20-46 | No table name is empty, since every name satisfies some category's rule. |
| Tools.ListingPartitionsTable | server.py:382-395 | The listing files the table under its five categories as the five declared blocks, and these blocks concatenated in table order give the whole table back. |
| Tools.ChakrasAgreeWithListing | server.py:397-404 | The chakra operation answers with the same seven entries the listing files under chakras, whatever the arguments. |
| Tools.PythagoreanDispatch | server.py:421-435 | With all three numbers present, the operation replies with the ratio's frequency or raises the ratio's fault. |
| Tools.FibonacciDispatch | server.py:437-450 | With a numeric base and a whole index, the operation replies with the Fibonacci frequency, echoing base and index as sent, or raises IndexOutOfRange. |
| Tools.QuantumDispatch | server.py:496-509 | With base and level present, the operation replies with the base times the level squared. |
| Tools.HarmonicDispatch | server.py:406-419 | The reply carries the harmonic series for the given or default count, and its length. |
| Tools.GoldenRatioDispatch | server.py:452-464 | The reply carries the base, phi and the golden-ratio frequency. |
| Tools.PrimeHarmonicsDispatch | server.py:466-479 | The reply carries the primes used, the given list or the ten defaults, and their harmonics. |
| Tools.PhiSpiralDispatch | server.py:481-494 | The reply carries the phi spiral for the given or default count, and its length. |
| Tools.FractalDispatch | server.py:511-525 | The reply carries the deduplicated sorted trail for the given or default depth, and its length. |
| Tools.CascadeDispatch | server.py:527-540 | The reply carries the cascade for the given or default number of steps. |
| Tools.MatrixDispatch | server.py:542-578 | The reply echoes base and the three flags as sent, and carries the matrix built from the parts the flags switch on by Python truthiness, with its length. |
| Tools.OptionalNotRequired | server.py:357-547 | No argument with a default is also required, so a default never hides a missing-argument fault. |
| Tools.HarmonicReply | server.py:406-419 | The reply reports its own length, which is max(count, 0), and lists the multiples base, 2*base, and so on. |
| Tools.PythagoreanZeroDenominator | server.py:421-435 | The call raises ZeroDivision exactly when the denominator is zero. Otherwise the frequency times the denominator equals the base times the numerator. |
| Tools.FibonacciIndexFault | server.py:437-450 | The call raises IndexOutOfRange exactly when the index is below -12. Indices 0 to 11 scale the base by Fib(index), and larger ones by 144. |
| Tools.GoldenRatioReply | server.py:452-464 | The reply carries phi and a frequency that cuts base and itself in the golden section. |
| Tools.PrimeHarmonicsReply | server.py:466-479 | The reply echoes the primes used and scales the base by each of them, keeping the order. |
| Tools.PhiSpiralReply | server.py:481-494 | The reply reports its own length, which is max(count, 0), and lists base times successive powers of phi. |
| Tools.QuantumReply | server.py:496-509 | A whole level n ≥ 1 answers with the (n*n)-th harmonic of the base, and the same as for level -n. |
| Tools.FractalReply | server.py:511-525 | The reply reports its own length and is strictly ascending, and its values are exactly those of the fractal trail. |
| Tools.CascadeReply | server.py:527-540 | The reply holds max(steps, 1) values, and value i is the base times sqrt2^i. |
| Tools.MatrixReply | server.py:542-578 | The reply echoes the three flags as sent, and its size field equals its length. It is strictly ascending and holds exactly the values of the parts whose flags are truthy. |
| Tools.HarmonicExample | server.py:406-419 | A 100 Hz base with five harmonics gives 100, 200, 300, 400 and 500 Hz. |
| Tools.PythagoreanExample | server.py:421-435 | A 3:2 ratio above 220 Hz gives 330 Hz. |
| Tools.FibonacciExample | server.py:437-450 | Base 10 at index 5 gives 80. |
| Tools.FibonacciClampExample | server.py:437-450 | Base 10 at index 50 clamps to 1440. |
| WellTones.Lookup | server.py:358-359 | The lookup succeeds exactly for a tabulated name, and the value it returns is stored under that name. |
| WellTones.View | server.py:384-388 | A category's view holds exactly the table entries whose names satisfy the category's rule. |
| Calculations.QuantumHarmonic | server.py:84-86 | A whole level gives the frequency times the level's integer square, and negating the level changes nothing. |
| Calculations.FibonacciFrequencyOfReal | server.py:59-64 | A float index succeeds exactly when it is at least 12, and then gives the same frequency as any whole index of 12 or more. |
| Tools.CallTool | server.py:352-586 | A call gets the unknown-tool error exactly when no operation is registered under the name. A registered name dispatches its own operation on the decoded arguments. |
| Tools.RunWellToneLookup | server.py:356-380 | A string name is answered with its tabulated entry exactly when tabulated. A list raises, since it is unhashable. Anything else gets the not-found error quoting the name and listing all names. |
| Tools.RunListing | server.py:382-395 | Each of the five lists holds exactly the table entries its category's rule admits. |
| Tools.RunChakras | server.py:397-404 | The reply holds exactly the table entries whose names start with "chakra_". |
| Tools.RunHarmonicSeries | server.py:406-419 | The call replies exactly when base and count are usable, echoing the base. The reply lists max(count, 0) multiples of the base and reports that count. Otherwise it raises MalformedArgument. |
| Tools.RunPythagorean | server.py:421-435 | With a numeric ratio the call raises ZeroDivision exactly for a zero denominator, whatever the base. With all three numeric and a nonzero denominator it always replies. A reply echoes the three arguments and its frequency times the denominator is base times numerator. MalformedArgument comes exactly for a non-numeric ratio term, or a non-numeric base with a nonzero denominator. |
| Tools.RunFibonacci | server.py:437-450 | A reply echoes base and index. A whole index raises IndexOutOfRange exactly below -12, whatever the base, and with a numeric base it replies exactly for an index of -12 or above, with the Fibonacci frequency. A float index replies exactly at 12.0 or above, with base times 144. Any other index raises MalformedArgument naming the index, whatever the base. A non-numeric base never gets a reply. |
| Tools.RunGoldenRatio | server.py:452-464 | The call replies exactly for a numeric base, echoing it with phi and a frequency in the golden section. Otherwise it raises MalformedArgument("base_frequency"). |
| Tools.RunPrimeHarmonics | server.py:466-479 | The call replies exactly for a numeric base and an integer list. The reply echoes the primes and scales the base by each, in order. |
| Tools.RunPhiSpiral | server.py:481-494 | The call replies exactly for a numeric base and a whole count. The reply lists max(count, 0) values base times phi^i and reports that count. |
| Tools.RunQuantum | server.py:496-509 | The call replies exactly for a numeric base and level, echoing both. A whole level gives the base times the level's square. |
| Tools.RunFractal | server.py:511-525 | The call replies exactly for a numeric base and a whole depth, echoing both. The reply is strictly ascending, holds exactly the trail's values and reports its length. |
| Tools.RunCascade | server.py:527-540 | The call replies exactly for a numeric base and a whole step count, echoing both. The reply has max(steps, 1) values, starting at the base. |
| Tools.MatrixSizeRead | server.py:549-557 | A whole size is always read as itself. With every part off the size is never read. With the golden-ratio or prime part on, a size that is not whole is rejected. With only the Fibonacci part on, a float size is accepted exactly above 12, as 12. |
| Tools.RunMatrix | server.py:542-578 | The call replies exactly for a numeric base and a readable size, echoing the base and the three flags as sent. The reply is ascending, reports its length and holds exactly the values of the parts whose flags are truthy. |
| Tools.FibonacciFloatIndex | server.py:437-450 | A float index raises MalformedArgument exactly below 12.0. At 12.0 or above, the reply echoes the float index with base times 144, the same frequency as index 12. |
| Tools.MatrixSizeUnread | server.py:542-562 | With all three flags falsy, the call replies with the empty matrix whatever the size argument holds. |
| Tools.MatrixFloatSize | server.py:549-551 | With only the Fibonacci flag truthy, a float size replies exactly when it exceeds 12, and then gives the size-12 matrix. Otherwise it raises MalformedArgument("matrix_size"). |
| Tools.FibonacciFloatClampExample | server.py:437-450 | Base 10 at the float index 12.5 clamps to 1440. |

## Left out

- MCP transport and bootstrap: the server object, the decorators, the stdio
  server and `main` (server.py:11-17, 589-613). These are asynchronous I/O
  over a library that is not part of this model.
- The `list_tools` schemas (server.py:111-349). They are descriptive metadata.
  Their minimum and maximum bounds are never checked when a tool is called, so
  the model does not enforce them either.
- JSON text formatting. Replies are structured payloads, not `json.dumps`
  text:
  - the not-found error carries the list of names rather than the
    comma-joined string;
  - the Pythagorean reply carries the numerator and denominator rather than
    the "num/den" string;
  - the lookup reply omits the fixed "Retrieved <name> frequency"
    description, which only repeats the name.
- Floating point. Frequencies are exact reals: `math.sqrt`, `**` and float
  rounding are not modelled. Float equality inside `set()` is modelled as
  real equality, so values that floats would merge or keep apart may be
  treated differently.
- Argument values other than int, float, bool, string and list of ints
  (nested objects, null, lists of other element types) are not represented.
- Tools.Decode: argument names no operation reads are dropped, because no
  operation can observe them.
- Python errors are modelled coarsely. Every `TypeError` from an unusable
  argument type is one `MalformedArgument` fault naming the argument.
  Examples: a string count, a float spiral count, a list as a lookup name.
- The order of malformed-argument reports. When several arguments are
  unusable, the model names the base frequency first, then the others in the
  handler's read order. The Pythagorean and Fibonacci operations are the
  exceptions: there the ratio terms, or the index, are read before the base,
  as in Python. Python names whichever bad value an operation touches
  first, which can be a different one.
- Tools.MalformedBase: the model raises for every base that is not a number,
  but Python does not always raise.
  - A string or list base times a whole number repeats the sequence:
    `"a" * 2` gives `"aa"`. Whole-number factors occur in the harmonic
    series, the prime harmonics, the Fibonacci lookup, a whole quantum
    level, and the Fibonacci and prime parts of the matrix. A float factor
    (phi, sqrt2, a ratio) raises as the model does.
  - A base the code never multiplies is echoed back unchanged. That happens
    with a zero or negative harmonic count or spiral count, an empty prime
    list, depth ≤ 0, steps ≤ 1, all matrix flags off, and a matrix size of
    0 or below -9. Those sizes leave every enabled part empty. A size from
    -9 to -1 still keeps some default primes, which do multiply the base.
  - Values that reach `set(...)` must be hashable. That covers the
    fractal's `[base]` at depth ≤ 0 and the entries of a non-empty matrix.
    A string passes; a list base raises there.
  - The model does not represent sequence repetition.
- Tools.RunPrimeHarmonics: a string `primes` argument raises
  `MalformedArgument("primes")` in the model. Python iterates over the
  string's characters instead: `""` replies with no harmonics for any base,
  and a non-empty string times an integer base repeats each character. The
  model represents only integer lists for this argument.
- Tools.HarmonicReply: stated for a numeric base and an integer (or bool) count. Other argument types are covered only by Dispatch and MalformedBase.
- Tools.PhiSpiralReply: stated for a numeric base and an integer (or bool) count, for the same reason.
- Tools.FractalReply: stated for a numeric base and an integer (or bool) depth, for the same reason.
- Tools.CascadeReply: stated for a numeric base and an integer (or bool) step count, for the same reason.
- Tools.MatrixReply: stated for a numeric base and an integer (or bool) size, for the same reason.
- Calculations.FrequencyMatrix: states the matrix's order and
  its set of values, not a closed-form count of distinct values. How many
  values coincide depends on phi's relation to the Fibonacci and prime
  multiples, and the model leaves phi symbolic.
