/** The numeric file store of `dair_pll/file_utils.py`.

    A directory is modelled by the set of its entries' base names (or, where
    the contents matter, by a map from base name to contents). Paths are
    strings built with a model of POSIX `os.path.join`; `abspath` and the
    recursive directory creation of `assure_created` are not modelled. */
module FileUtils {
  import opened PyLists

  /** Extension of trajectory files. */
  const TrajExtension: string := ".pt"
  /** Extension of experiment-statistics files. */
  const StatsExtension: string := ".pkl"

  // ---------------------------------------------------------------------
  // Decimal rendering of integers, `str(n)`.

  predicate IsDigit(c: char) { '0' <= c <= '9' }

  predicate AllDigits(s: string) { forall k :: 0 <= k < |s| ==> IsDigit(s[k]) }

  function DigitChar(d: nat): (c: char)
    requires d < 10
    ensures IsDigit(c) && c as int - '0' as int == d
  {
    ('0' as int + d) as char
  }

  /** `str(n)` for `n >= 0`: at least one digit and nothing but digits. */
  function NatToString(n: nat): (s: string)
    ensures |s| >= 1 && AllDigits(s)
    decreases n
  {
    if n < 10 then [DigitChar(n)] else NatToString(n / 10) + [DigitChar(n % 10)]
  }

  /** The value of a string of decimal digits, `int(s)`. */
  function DigitsValue(s: string): nat
    requires AllDigits(s)
    decreases |s|
  {
    if s == [] then 0
    else DigitsValue(s[..|s| - 1]) * 10 + (s[|s| - 1] as int - '0' as int)
  }

  /** `int(str(n)) == n`. */
  lemma {:induction false} DigitsValueOfNatToString(n: nat)
    ensures DigitsValue(NatToString(n)) == n
    decreases n
  {
    if n >= 10 {
      var s := NatToString(n);
      assert s[..|s| - 1] == NatToString(n / 10);
      DigitsValueOfNatToString(n / 10);
    }
  }

  lemma NatToStringInjective(m: nat, n: nat)
    ensures NatToString(m) == NatToString(n) <==> m == n
  {
    DigitsValueOfNatToString(m);
    DigitsValueOfNatToString(n);
  }

  /** `str(n)` for any integer. */
  function IntToString(n: int): (s: string)
    ensures |s| >= 1 && s[0] != '/'
    ensures n >= 0 ==> s == NatToString(n)
  {
    if n < 0 then "-" + NatToString(-n) else NatToString(n)
  }

  lemma IntToStringInjective(m: int, n: int)
    ensures IntToString(m) == IntToString(n) <==> m == n
  {
    if IntToString(m) == IntToString(n) {
      if m < 0 && n < 0 {
        assert NatToString(-m) == IntToString(m)[1..];
        assert NatToString(-n) == IntToString(n)[1..];
        NatToStringInjective(-m, -n);
      } else if m >= 0 && n >= 0 {
        NatToStringInjective(m, n);
      }
    }
  }

  // ---------------------------------------------------------------------
  // Paths.

  /** POSIX `os.path.join(a, b)`. */
  function Join(a: string, b: string): string {
    if |b| > 0 && b[0] == '/' then b
    else if a == [] || a[|a| - 1] == '/' then a + b
    else a + "/" + b
  }

  /** Joining a relative name onto a fixed directory loses nothing. */
  lemma JoinInjective(d: string, x: string, y: string)
    requires |x| > 0 && x[0] != '/' && |y| > 0 && y[0] != '/'
    ensures Join(d, x) == Join(d, y) <==> x == y
  {
    if Join(d, x) == Join(d, y) {
      var p := if d == [] || d[|d| - 1] == '/' then d else d + "/";
      assert Join(d, x) == p + x && Join(d, y) == p + y;
      assert x == (p + x)[|p|..];
      assert y == (p + y)[|p|..];
    }
  }

  lemma AppendCancel(x: string, y: string, ext: string)
    ensures x + ext == y + ext <==> x == y
  {
    if x + ext == y + ext {
      assert x == (x + ext)[..|x|];
      assert y == (y + ext)[..|y|];
    }
  }

  /** `data_dir(storage_name)`. */
  function DataDir(storage: string): string { Join(storage, "data") }

  /** Base name of the trajectory file with index `k`. */
  function TrajectoryFileName(k: int): string { IntToString(k) + TrajExtension }

  /** Distinct trajectory indices have distinct file names. */
  lemma TrajectoryFileNameInjective(j: int, k: int)
    ensures TrajectoryFileName(j) == TrajectoryFileName(k) <==> j == k
  {
    AppendCancel(IntToString(j), IntToString(k), TrajExtension);
    IntToStringInjective(j, k);
  }

  /** `trajectory_file(storage_name, num_trajectory)`. */
  function TrajectoryFile(storage: string, k: int): string {
    Join(DataDir(storage), TrajectoryFileName(k))
  }

  /** Distinct trajectory indices have distinct paths. */
  lemma TrajectoryFileInjective(storage: string, j: int, k: int)
    ensures TrajectoryFile(storage, j) == TrajectoryFile(storage, k) <==> j == k
  {
    JoinInjective(DataDir(storage), TrajectoryFileName(j), TrajectoryFileName(k));
    AppendCancel(IntToString(j), IntToString(k), TrajExtension);
    IntToStringInjective(j, k);
  }

  // ---------------------------------------------------------------------
  // Counting whole-number-named files.

  /** The glob pattern `[0-9]*<ext>` on a base name. */
  predicate IsNumericName(name: string, ext: string) {
    |name| >= 1 + |ext| && IsDigit(name[0]) && name[|name| - |ext|..] == ext
  }

  function NumericNames(names: set<string>, ext: string): set<string> {
    set name | name in names && IsNumericName(name, ext)
  }

  /** `get_numeric_file_count(directory, extension)`: a cardinality, not a
      largest index plus one. */
  function NumericFileCount(names: set<string>, ext: string): (c: nat)
    ensures c <= |names|
  {
    var numeric := NumericNames(names, ext);
    assert numeric <= names;
    SubsetCardinality(numeric, names);
    |numeric|
  }

  lemma SubsetCardinality<T>(a: set<T>, b: set<T>)
    requires a <= b
    ensures |a| <= |b|
  {
    assert b == a + (b - a);
  }

  /** `get_trajectory_count(storage_name)` on the entries of the data directory. */
  function GetTrajectoryCount(data: set<string>): nat {
    NumericFileCount(data, TrajExtension)
  }

  /** The name `<k><ext>`. */
  function NumberedName(k: nat, ext: string): string { NatToString(k) + ext }

  /** The names `0<ext>`, ..., `<n-1><ext>`. */
  function NumberedNames(n: nat, ext: string): set<string> {
    set k | 0 <= k < n :: NumberedName(k, ext)
  }

  lemma NumberedNameIsNumeric(k: nat, ext: string)
    ensures IsNumericName(NumberedName(k, ext), ext)
  {
    var s := NatToString(k);
    assert (s + ext)[0] == s[0];
    assert (s + ext)[|s + ext| - |ext|..] == ext;
  }

  lemma NumberedNameInjective(i: nat, j: nat, ext: string)
    ensures NumberedName(i, ext) == NumberedName(j, ext) <==> i == j
  {
    AppendCancel(NatToString(i), NatToString(j), ext);
    NatToStringInjective(i, j);
  }

  lemma NumberedNamesStep(n: nat, ext: string)
    ensures NumberedNames(n + 1, ext) == NumberedNames(n, ext) + {NumberedName(n, ext)}
    ensures NumberedName(n, ext) !in NumberedNames(n, ext)
  {
    if NumberedName(n, ext) in NumberedNames(n, ext) {
      var k :| 0 <= k < n && NumberedName(k, ext) == NumberedName(n, ext);
      NumberedNameInjective(k, n, ext);
    }
  }

  /** There are exactly `n` names `0<ext>` ... `<n-1><ext>`. */
  lemma {:induction false} NumberedNamesCount(n: nat, ext: string)
    ensures |NumberedNames(n, ext)| == n
  {
    if n == 0 {
      assert NumberedNames(0, ext) == {};
    } else {
      NumberedNamesCount(n - 1, ext);
      NumberedNamesStep(n - 1, ext);
    }
  }

  /** The numeric files of a directory are exactly `0<ext>` ... `<n-1><ext>`:
      the layout that generation and import are meant to keep. */
  ghost predicate Dense(names: set<string>, ext: string, n: nat) {
    NumericNames(names, ext) == NumberedNames(n, ext)
  }

  /** On a dense directory the count is the number of indices in use. */
  lemma DenseCount(names: set<string>, ext: string, n: nat)
    requires Dense(names, ext, n)
    ensures NumericFileCount(names, ext) == n
  {
    NumberedNamesCount(n, ext);
  }

  /** On a dense directory the next index `<n><ext>` is not taken. */
  lemma DenseNextIsFresh(names: set<string>, ext: string, n: nat)
    requires Dense(names, ext, n)
    ensures NumberedName(n, ext) !in names
  {
    NumberedNameIsNumeric(n, ext);
    NumberedNamesStep(n, ext);
  }

  /** On a dense directory of `n` files no index from `n` on is taken. */
  lemma DenseAboveIsFresh(names: set<string>, ext: string, n: nat, k: nat)
    requires Dense(names, ext, n)
    requires n <= k
    ensures NumberedName(k, ext) !in names
  {
    forall j | 0 <= j < n
      ensures NumberedName(j, ext) != NumberedName(k, ext)
    {
      NumberedNameInjective(j, k, ext);
    }
    assert NumberedName(k, ext) !in NumberedNames(n, ext);
    NumberedNameIsNumeric(k, ext);
    assert NumberedName(k, ext) in names ==> NumberedName(k, ext) in NumericNames(names, ext);
  }

  /** Adding `<n><ext>` to a dense directory of `n` files keeps it dense. */
  lemma DenseAdd(names: set<string>, ext: string, n: nat)
    requires Dense(names, ext, n)
    ensures Dense(names + {NumberedName(n, ext)}, ext, n + 1)
  {
    NumberedNameIsNumeric(n, ext);
    NumberedNamesStep(n, ext);
    assert NumericNames(names + {NumberedName(n, ext)}, ext)
        == NumericNames(names, ext) + {NumberedName(n, ext)};
  }

  /** The docstring's example: `{7.pt, 11.pt, 4.pt}` has three numeric files. */
  lemma NumericFileCountExample()
    ensures NumericFileCount({"7.pt", "11.pt", "4.pt"}, ".pt") == 3
  {
    var names := {"7.pt", "11.pt", "4.pt"};
    assert IsNumericName("7.pt", ".pt") && IsNumericName("11.pt", ".pt")
        && IsNumericName("4.pt", ".pt");
    assert NumericNames(names, ".pt") == names;
    assert "7.pt" != "11.pt" && "7.pt" != "4.pt" && "11.pt" != "4.pt";
  }

  // ---------------------------------------------------------------------
  // Choosing the next name.

  /** `append_by_extension(directory, extension)`: the path of `<count><ext>`. */
  function AppendByExtension(directory: string, names: set<string>, ext: string): string {
    Join(directory, NumberedName(NumericFileCount(names, ext), ext))
  }

  /** On a dense directory of `n` files the chosen name is `<n><ext>` and is new. */
  lemma AppendByExtensionFresh(directory: string, names: set<string>, ext: string, n: nat)
    requires Dense(names, ext, n)
    ensures AppendByExtension(directory, names, ext) == Join(directory, NumberedName(n, ext))
    ensures NumberedName(n, ext) !in names
  {
    DenseCount(names, ext, n);
    DenseNextIsFresh(names, ext, n);
  }

  /** The docstring's example: `{0.pt, 1.pt, 2.pt}` gives `3.pt`. */
  lemma AppendByExtensionExample()
    ensures AppendByExtension("/fldr", {"0.pt", "1.pt", "2.pt"}, ".pt") == "/fldr/3.pt"
  {
    var names := {"0.pt", "1.pt", "2.pt"};
    assert IsNumericName("0.pt", ".pt") && IsNumericName("1.pt", ".pt")
        && IsNumericName("2.pt", ".pt");
    assert NumericNames(names, ".pt") == names;
    assert "0.pt" != "1.pt" && "0.pt" != "2.pt" && "1.pt" != "2.pt";
    assert NumericFileCount(names, ".pt") == 3;
    assert NumberedName(3, ".pt") == "3.pt";
  }

  /** Contiguity is not checked: with a gap, the chosen name may already exist. */
  lemma AppendByExtensionCollidesOnGap()
    ensures AppendByExtension("/fldr", {"1.pt"}, ".pt") == "/fldr/1.pt"
  {
    assert IsNumericName("1.pt", ".pt");
    assert NumericNames({"1.pt"}, ".pt") == {"1.pt"};
    assert NumberedName(1, ".pt") == "1.pt";
  }

  // ---------------------------------------------------------------------
  // Dataset-size sweeps.

  /** `sweep_dir(storage_name, n_train)`. */
  function SweepDir(storage: string, nTrain: int): string {
    Join(storage, IntToString(nTrain))
  }

  /** `sweep_summary_file(storage_name, n_train, n_run)`; `sweepEntries` are
      the names in the sweep directory. */
  function SweepSummaryFile(storage: string, nTrain: int, nRun: Option<int>,
                            sweepEntries: set<string>): (path: string)
  {
    var directory := SweepDir(storage, nTrain);
    if nRun.None? then AppendByExtension(directory, sweepEntries, StatsExtension)
    else Join(directory, IntToString(nRun.value) + StatsExtension)
  }

  /** Without `n_run` the summary file is the next numbered `.pkl` file, which
      on a dense sweep directory of `n` files is the same as passing `n_run = n`
      and names a file that does not exist yet. */
  lemma SweepSummaryFileNext(storage: string, nTrain: int, sweepEntries: set<string>, n: nat)
    requires Dense(sweepEntries, StatsExtension, n)
    ensures SweepSummaryFile(storage, nTrain, None, sweepEntries)
         == SweepSummaryFile(storage, nTrain, Some(n), sweepEntries)
    ensures IntToString(n) + StatsExtension !in sweepEntries
  {
    AppendByExtensionFresh(SweepDir(storage, nTrain), sweepEntries, StatsExtension, n);
  }

  /** Glob `[0-9]*` on a base name. */
  predicate StartsWithDigit(name: string) { |name| >= 1 && IsDigit(name[0]) }

  function Filter(names: seq<string>): (r: seq<string>)
    ensures forall k :: 0 <= k < |r| ==> StartsWithDigit(r[k])
    ensures forall name :: name in r <==> name in names && StartsWithDigit(name)
  {
    if names == [] then []
    else if StartsWithDigit(names[0]) then [names[0]] + Filter(names[1..])
    else Filter(names[1..])
  }

  predicate Sorted(s: seq<int>) { forall i, j :: 0 <= i < j < |s| ==> s[i] <= s[j] }

  /** Insert `x` into a sorted sequence. */
  function InsertSorted(s: seq<int>, x: int): (r: seq<int>)
    requires Sorted(s)
    ensures Sorted(r) && multiset(r) == multiset(s) + multiset{x}
    ensures |r| == |s| + 1 && (r[0] == x || (s != [] && r[0] == s[0]))
  {
    if s == [] || x <= s[0] then [x] + s
    else
      var t := InsertSorted(s[1..], x);
      assert s == [s[0]] + s[1..];
      [s[0]] + t
  }

  /** `int(name)` for each of a list of whole-number names, in order. */
  function Values(names: seq<string>): seq<int>
    requires forall name :: name in names ==> AllDigits(name)
  {
    seq(|names|, k requires 0 <= k < |names| => DigitsValue(names[k]))
  }

  /** `sweep_data_sizes(storage_name)`: the entries of the storage directory
      that start with a digit, converted by `int` and sorted ascending.
      `entries` is the directory listing in whatever order glob returns it;
      `None` stands for the ValueError `int` raises on a name that is not a
      whole number. */
  method SweepDataSizes(entries: seq<string>) returns (sizes: Option<seq<int>>)
    ensures sizes.Some? <==> forall name :: name in entries && StartsWithDigit(name) ==> AllDigits(name)
    ensures sizes.Some? ==> Sorted(sizes.value)
    ensures sizes.Some? ==> |sizes.value| == |Filter(entries)|
    ensures sizes.Some? ==> multiset(sizes.value) == multiset(Values(Filter(entries)))
    ensures sizes.Some? ==> forall v :: v in sizes.value <==>
              exists name :: name in entries && StartsWithDigit(name) && AllDigits(name) && v == DigitsValue(name)
  {
    var folders := Filter(entries);
    var ints: seq<int> := [];
    for k := 0 to |folders|
      invariant |ints| == k
      invariant forall j :: 0 <= j < k ==> AllDigits(folders[j]) && ints[j] == DigitsValue(folders[j])
    {
      if !AllDigits(folders[k]) {
        return None;
      }
      ints := ints + [DigitsValue(folders[k])];
    }
    ConvertedNames(entries, ints);
    assert ints == Values(folders);
    var sorted := SortAscending(ints);
    assert |sorted| == |multiset(sorted)|;
    forall v ensures v in sorted <==> v in ints {
      assert v in sorted <==> v in multiset(ints);
    }
    sizes := Some(sorted);
  }

  /** The converted names are exactly the values of the digit-only names
      among the entries. */
  lemma ConvertedNames(entries: seq<string>, ints: seq<int>)
    requires |ints| == |Filter(entries)|
    requires forall j :: 0 <= j < |ints| ==> AllDigits(Filter(entries)[j]) && ints[j] == DigitsValue(Filter(entries)[j])
    ensures forall v :: v in ints <==>
              exists name :: name in entries && StartsWithDigit(name) && AllDigits(name) && v == DigitsValue(name)
  {
    var folders := Filter(entries);
    forall v ensures v in ints <==> exists name :: name in entries && StartsWithDigit(name) && AllDigits(name) && v == DigitsValue(name) {
      if v in ints {
        var j :| 0 <= j < |ints| && ints[j] == v;
        assert folders[j] in entries;
      }
      if exists name :: name in entries && StartsWithDigit(name) && AllDigits(name) && v == DigitsValue(name) {
        var name :| name in entries && StartsWithDigit(name) && AllDigits(name) && v == DigitsValue(name);
        assert name in folders;
        var j :| 0 <= j < |folders| && folders[j] == name;
        assert ints[j] == v;
      }
    }
  }

  /** `sorted(values)`, written as an insertion sort. */
  method SortAscending(values: seq<int>) returns (sorted: seq<int>)
    ensures Sorted(sorted) && multiset(sorted) == multiset(values)
  {
    sorted := [];
    for k := 0 to |values|
      invariant Sorted(sorted) && multiset(sorted) == multiset(values[..k])
    {
      assert values[..k + 1] == values[..k] + [values[k]];
      sorted := InsertSorted(sorted, values[k]);
    }
    assert values[..|values|] == values;
  }

  lemma SortedHeadIsLeast(s: seq<int>, v: int)
    requires Sorted(s) && v in multiset(s)
    ensures s != [] && s[0] <= v
  {
    assert v in s;
  }

  /** A sorted arrangement of a multiset is unique, so the sizes do not depend on
      the order in which the directory is listed. */
  lemma {:induction false} SortedUnique(a: seq<int>, b: seq<int>)
    requires Sorted(a) && Sorted(b) && multiset(a) == multiset(b)
    ensures a == b
    decreases |a|
  {
    if a != [] && b != [] {
      assert a[0] in multiset(a) && b[0] in multiset(b);
      SortedHeadIsLeast(b, a[0]);
      SortedHeadIsLeast(a, b[0]);
      assert a[0] == b[0];
      assert a == [a[0]] + a[1..];
      assert b == [b[0]] + b[1..];
      assert multiset(a) == multiset{a[0]} + multiset(a[1..]);
      assert multiset(b) == multiset{b[0]} + multiset(b[1..]);
      assert multiset(a[1..]) == multiset(a) - multiset{a[0]};
      assert multiset(b[1..]) == multiset(b) - multiset{b[0]};
      SortedUnique(a[1..], b[1..]);
    } else {
      assert |a| == |multiset(a)| == |multiset(b)| == |b|;
    }
  }

  // ---------------------------------------------------------------------
  // Import.

  /** A directory whose entries the program reads and replaces. */
  class Directory<T> {
    var files: map<string, T>

    constructor (files: map<string, T>)
      ensures this.files == files
    {
      this.files := files;
    }
  }

  /** What `import_data_to_storage` leaves in the storage's data directory. */
  function Reconciled<T>(target: map<string, T>, source: map<string, T>): map<string, T> {
    if NumericFileCount(target.Keys, TrajExtension) != NumericFileCount(source.Keys, TrajExtension)
    then source else target
  }

  /** After an import the two directories report the same trajectory count, and
      the target is either untouched or a copy of the source. */
  lemma ReconciledCounts<T>(target: map<string, T>, source: map<string, T>)
    ensures var r := Reconciled(target, source);
            GetTrajectoryCount(r.Keys) == GetTrajectoryCount(source.Keys)
            && (r == target || r == source)
            && (GetTrajectoryCount(target.Keys) == GetTrajectoryCount(source.Keys) ==> r == target)
  {
  }

  /** Importing twice is the same as importing once. */
  lemma ReconciledIdempotent<T>(target: map<string, T>, source: map<string, T>)
    ensures Reconciled(Reconciled(target, source), source) == Reconciled(target, source)
  {
  }

  /** `import_data_to_storage(storage_name, import_data_dir)`: when the two
      trajectory counts differ, delete the data directory and copy the source
      over it wholesale; otherwise do nothing. */
  method ImportDataToStorage<T>(storageData: Directory<T>, importData: Directory<T>)
    modifies storageData
    ensures storageData.files == Reconciled(old(storageData.files), old(importData.files))
    ensures GetTrajectoryCount(storageData.files.Keys) == GetTrajectoryCount(old(importData.files).Keys)
  {
    var storageTrajCount := GetTrajectoryCount(storageData.files.Keys);
    var dataTrajCount := GetTrajectoryCount(importData.files.Keys);
    if storageTrajCount != dataTrajCount {
      var copied := importData.files;
      storageData.files := map[];
      storageData.files := copied;
    }
  }
}
