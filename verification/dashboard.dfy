/**
 * The dashboard's derived views of the record list (dashboard.component.ts):
 * the four totals, the expenses grouped by note, the monthly income/expense
 * series, and the object sent for update after an edit.
 *
 * Every fold over the record list is written as a left fold (last element
 * last), the order in which `reduce` and `forEach` visit the records.
 */
module Dashboard {
  import opened Records
  import RecordModal

  const Income: string := "Income"
  const Expense: string := "Expense"
  const Uncategorized: string := "Uncategorized"

  predicate NoDuplicates<T(==)>(s: seq<T>) {
    forall i, j :: 0 <= i < j < |s| ==> s[i] != s[j]
  }

  // ---------------------------------------------------------------------------
  // Totals (calculateTotals)
  // ---------------------------------------------------------------------------

  /** `records.filter(r => r.type === kind)`, in the original order. */
  function OfKind(rs: seq<Record>, kind: string): (out: seq<Record>)
    ensures |out| <= |rs|
    ensures forall i :: 0 <= i < |out| ==> out[i].kind == kind && out[i] in rs
  {
    if rs == [] then []
    else OfKind(rs[..|rs| - 1], kind) + (if rs[|rs| - 1].kind == kind then [rs[|rs| - 1]] else [])
  }

  /**
   * The filter loses nothing: each record of that type is kept as many
   * times as it occurs, and no other record is kept at all.
   */
  lemma {:induction false} OfKindKeepsAll(rs: seq<Record>, kind: string, r: Record)
    ensures multiset(OfKind(rs, kind))[r] == if r.kind == kind then multiset(rs)[r] else 0
    decreases |rs|
  {
    if rs != [] {
      var init, last := rs[..|rs| - 1], rs[|rs| - 1];
      OfKindKeepsAll(init, kind, r);
      assert rs == init + [last];
    }
  }

  /** `.reduce((sum, r) => sum + r.amount, 0)`: never negative when no amount is. */
  function SumAmounts(rs: seq<Record>): (sum: real)
    ensures (forall i :: 0 <= i < |rs| ==> rs[i].amount >= 0.0) ==> sum >= 0.0
  {
    if rs == [] then 0.0 else SumAmounts(rs[..|rs| - 1]) + rs[|rs| - 1].amount
  }

  datatype Totals = Totals(income: real, expense: real, savings: real, savingsPercentage: real)

  /** The four figures `calculateTotals` stores for a record list. */
  function TotalsOf(rs: seq<Record>): (t: Totals)
    ensures t.savings == t.income - t.expense
    ensures t.income > 0.0 ==> t.savingsPercentage * t.income == t.savings * 100.0
    ensures t.income <= 0.0 ==> t.savingsPercentage == 0.0
  {
    var income := SumAmounts(OfKind(rs, Income));
    var expense := SumAmounts(OfKind(rs, Expense));
    var savings := income - expense;
    Totals(income, expense, savings, if income > 0.0 then savings / income * 100.0 else 0.0)
  }

  lemma {:induction false} SumAmountsAppend(a: seq<Record>, b: seq<Record>)
    ensures SumAmounts(a + b) == SumAmounts(a) + SumAmounts(b)
    decreases |b|
  {
    if b == [] {
      assert a + b == a;
    } else {
      var b' := b[..|b| - 1];
      SumAmountsAppend(a, b');
      assert (a + b)[..|a + b| - 1] == a + b';
    }
  }

  lemma {:induction false} OfKindAppend(a: seq<Record>, b: seq<Record>, kind: string)
    ensures OfKind(a + b, kind) == OfKind(a, kind) + OfKind(b, kind)
    decreases |b|
  {
    if b == [] {
      assert a + b == a;
    } else {
      var b' := b[..|b| - 1];
      OfKindAppend(a, b', kind);
      assert (a + b)[..|a + b| - 1] == a + b';
    }
  }

  /** A single record counts toward the total of its own type only, with its full amount. */
  lemma TotalsOfOne(r: Record)
    ensures TotalsOf([r]).income == (if r.kind == Income then r.amount else 0.0)
    ensures TotalsOf([r]).expense == (if r.kind == Expense then r.amount else 0.0)
  {
  }

  /**
   * A record whose type is neither 'Income' nor 'Expense' changes none of the
   * totals, wherever it stands in the list.
   */
  lemma OtherKindsIgnored(before: seq<Record>, r: Record, after: seq<Record>)
    requires r.kind != Income && r.kind != Expense
    ensures TotalsOf(before + [r] + after) == TotalsOf(before + after)
  {
    FilterSkips(before, r, after, Income);
    FilterSkips(before, r, after, Expense);
  }

  lemma FilterSkips(before: seq<Record>, r: Record, after: seq<Record>, kind: string)
    requires r.kind != kind
    ensures OfKind(before + [r] + after, kind) == OfKind(before + after, kind)
  {
    OfKindAppend(before + [r], after, kind);
    OfKindAppend(before, [r], kind);
    OfKindAppend(before, after, kind);
    assert [r][..0] == [];
  }

  /** The totals of a list are the totals of its parts added up. */
  lemma TotalsAdd(a: seq<Record>, b: seq<Record>)
    ensures TotalsOf(a + b).income == TotalsOf(a).income + TotalsOf(b).income
    ensures TotalsOf(a + b).expense == TotalsOf(a).expense + TotalsOf(b).expense
  {
    OfKindAppend(a, b, Income);
    SumAmountsAppend(OfKind(a, Income), OfKind(b, Income));
    OfKindAppend(a, b, Expense);
    SumAmountsAppend(OfKind(a, Expense), OfKind(b, Expense));
  }

  /** No records: all four figures are 0, and nothing is divided by zero. */
  lemma TotalsOfNoRecords()
    ensures TotalsOf([]) == Totals(0.0, 0.0, 0.0, 0.0)
  {
  }

  /** Income 100 and expense 40 give savings 60, which is 60 percent. */
  lemma TotalsOfIncomeAndExpense()
    ensures TotalsOf([Record(None, "2024-01-15", Income, 100.0, None), Record(None, "2024-01-16", Expense, 40.0, None)])
         == Totals(100.0, 40.0, 60.0, 60.0)
  {
    var rs := [Record(None, "2024-01-15", Income, 100.0, None), Record(None, "2024-01-16", Expense, 40.0, None)];
    assert rs[..1] == [rs[0]] && [rs[0]][..0] == [];
    assert OfKind(rs, Income) == [rs[0]];
    assert OfKind(rs, Expense) == [rs[1]];
    assert [rs[1]][..0] == [];
    assert SumAmounts([rs[0]]) == 100.0;
    assert SumAmounts([rs[1]]) == 40.0;
  }

  /**
   * With non-negative amounts, income and expense are non-negative and the
   * savings percentage never exceeds 100.
   */
  lemma SavingsPercentageAtMost100(rs: seq<Record>)
    requires forall i :: 0 <= i < |rs| ==> rs[i].amount >= 0.0
    ensures TotalsOf(rs).income >= 0.0 && TotalsOf(rs).expense >= 0.0
    ensures TotalsOf(rs).savingsPercentage <= 100.0
  {
    var t := TotalsOf(rs);
    assert t.savings <= t.income;
    if t.income > 0.0 {
      assert t.savingsPercentage == t.savings / t.income * 100.0;
    }
  }

  class DashboardComponent {
    var records: seq<Record>
    var totalIncome: real
    var totalExpense: real
    var savings: real
    var savingsPercentage: real

    constructor ()
      ensures records == [] && totalIncome == 0.0 && totalExpense == 0.0
      ensures savings == 0.0 && savingsPercentage == 0.0
    {
      records := [];
      totalIncome, totalExpense, savings, savingsPercentage := 0.0, 0.0, 0.0, 0.0;
    }

    method CalculateTotals()
      modifies this`totalIncome, this`totalExpense, this`savings, this`savingsPercentage
      ensures Totals(totalIncome, totalExpense, savings, savingsPercentage) == TotalsOf(records)
    {
      totalIncome := SumAmounts(OfKind(records, Income));
      totalExpense := SumAmounts(OfKind(records, Expense));
      savings := totalIncome - totalExpense;
      savingsPercentage := if totalIncome > 0.0 then savings / totalIncome * 100.0 else 0.0;
    }

    /**
     * `groupExpensesByNote`: the total amount per category, built up record
     * by record in a dictionary.
     */
    method GroupExpensesByNote(expenseRecords: seq<Record>) returns (grouped: map<string, real>)
      ensures grouped.Keys == CategoriesOf(expenseRecords)
      ensures forall c :: c in grouped ==> grouped[c] == CategorySum(expenseRecords, c)
    {
      grouped := map[];
      var i := 0;
      while i < |expenseRecords|
        invariant 0 <= i <= |expenseRecords|
        invariant grouped.Keys == CategoriesOf(expenseRecords[..i])
        invariant forall c :: c in grouped ==> grouped[c] == CategorySum(expenseRecords[..i], c)
        invariant forall c :: c !in grouped ==> CategorySum(expenseRecords[..i], c) == 0.0
      {
        var record := expenseRecords[i];
        var category := Category(record.note);
        assert expenseRecords[..i + 1][..i] == expenseRecords[..i];
        assert CategoriesOf(expenseRecords[..i + 1]) == CategoriesOf(expenseRecords[..i]) + {category};
        assert forall c :: CategorySum(expenseRecords[..i + 1], c)
                        == CategorySum(expenseRecords[..i], c) + (if category == c then record.amount else 0.0);
        // `if (grouped[category])`: an existing total of 0 is falsy and is overwritten,
        // which gives the same number as adding to it.
        if category in grouped && grouped[category] != 0.0 {
          grouped := grouped[category := grouped[category] + record.amount];
        } else {
          grouped := grouped[category := record.amount];
        }
        i := i + 1;
      }
      assert expenseRecords[..i] == expenseRecords;
    }

    /**
     * `getMonthlyData`: one bucket per month in which some record has a
     * parseable date, in chronological order, with the income and expense
     * series index-aligned to the months.
     */
    method GetMonthlyData(parse: DateParser) returns (months: seq<MonthKey>, income: seq<real>, expense: seq<real>)
      ensures |months| == |income| == |expense|
      ensures Chronological(months)
      ensures forall m :: m in months <==> m in MonthsOf(records, parse)
      ensures forall i :: 0 <= i < |months| ==>
                income[i] == MonthSum(records, parse, months[i], Income)
                && expense[i] == MonthSum(records, parse, months[i], Expense)
    {
      var monthlyData: map<MonthKey, Bucket> := map[];
      var keys: seq<MonthKey> := [];  // `Object.keys(monthlyData)`: first appearance first
      var i := 0;
      while i < |records|
        invariant 0 <= i <= |records|
        invariant monthlyData.Keys == MonthsOf(records[..i], parse)
        invariant forall m :: m in keys <==> m in monthlyData
        invariant NoDuplicates(keys)
        invariant forall m :: m in monthlyData ==>
                    monthlyData[m].income == MonthSum(records[..i], parse, m, Income)
                    && monthlyData[m].expense == MonthSum(records[..i], parse, m, Expense)
        invariant forall m :: m !in monthlyData ==>
                    MonthSum(records[..i], parse, m, Income) == 0.0
                    && MonthSum(records[..i], parse, m, Expense) == 0.0
      {
        var record := records[i];
        match parse(record.date) {
          case None =>
            // an invalid date is skipped
          case Some(m) =>
            if m !in monthlyData {
              monthlyData := monthlyData[m := Bucket(0.0, 0.0)];
              keys := keys + [m];
            }
            var bucket := monthlyData[m];
            if record.kind == Income {
              monthlyData := monthlyData[m := bucket.(income := bucket.income + record.amount)];
            } else if record.kind == Expense {
              monthlyData := monthlyData[m := bucket.(expense := bucket.expense + record.amount)];
            }
        }
        assert records[..i + 1][..i] == records[..i];
        i := i + 1;
      }
      assert records[..i] == records;
      months := SortChronologically(keys);
      income := seq(|months|, j requires 0 <= j < |months| => monthlyData[months[j]].income);
      expense := seq(|months|, j requires 0 <= j < |months| => monthlyData[months[j]].expense);
    }
  }

  // ---------------------------------------------------------------------------
  // Expenses by note (groupExpensesByNote)
  // ---------------------------------------------------------------------------

  /** The characters `String.prototype.trim` removes: ECMAScript white space and line terminators. */
  predicate IsTrimmable(c: char) {
    || c == '\t' || c == '\n' || c == '\U{B}' || c == '\U{C}' || c == '\r' || c == ' '
    || c == '\U{A0}' || c == '\U{1680}' || ('\U{2000}' <= c <= '\U{200A}')
    || c == '\U{2028}' || c == '\U{2029}' || c == '\U{202F}' || c == '\U{205F}'
    || c == '\U{3000}' || c == '\U{FEFF}'
  }

  function TrimStart(s: string): string {
    if s != [] && IsTrimmable(s[0]) then TrimStart(s[1..]) else s
  }

  function TrimEnd(s: string): string {
    if s != [] && IsTrimmable(s[|s| - 1]) then TrimEnd(s[..|s| - 1]) else s
  }

  /** `s.trim()`. */
  function Trim(s: string): string {
    TrimEnd(TrimStart(s))
  }

  /** Nothing but white space (the empty string included). */
  predicate IsBlank(s: string) {
    forall i :: 0 <= i < |s| ==> IsTrimmable(s[i])
  }

  lemma {:induction false} BlankTrimStartIsEmpty(s: string)
    requires IsBlank(s)
    ensures TrimStart(s) == ""
    decreases |s|
  {
    if s != [] {
      BlankTrimStartIsEmpty(s[1..]);
    }
  }

  lemma {:induction false} BlankAfterTrimStart(s: string)
    requires IsBlank(TrimStart(s))
    ensures IsBlank(s)
    decreases |s|
  {
    if s != [] && IsTrimmable(s[0]) {
      BlankAfterTrimStart(s[1..]);
      forall i | 0 <= i < |s| ensures IsTrimmable(s[i]) {
        if i > 0 { assert s[i] == s[1..][i - 1]; }
      }
    }
  }

  lemma {:induction false} EmptyTrimEndIsBlank(s: string)
    requires TrimEnd(s) == ""
    ensures IsBlank(s)
    decreases |s|
  {
    if s != [] {
      EmptyTrimEndIsBlank(s[..|s| - 1]);
      forall i | 0 <= i < |s| ensures IsTrimmable(s[i]) {
        if i < |s| - 1 { assert s[i] == s[..|s| - 1][i]; }
      }
    }
  }

  /** `s.trim() === ''` exactly when `s` is blank. */
  lemma TrimmedEmptyIffBlank(s: string)
    ensures Trim(s) == "" <==> IsBlank(s)
  {
    if IsBlank(s) {
      BlankTrimStartIsEmpty(s);
    }
    if Trim(s) == "" {
      EmptyTrimEndIsBlank(TrimStart(s));
      BlankAfterTrimStart(s);
    }
  }

  /**
   * The grouping key of a note: the note itself, untrimmed, when it has a
   * non-white-space character; otherwise 'Uncategorized'.
   */
  function Category(note: Option<string>): (c: string)
    ensures c == if note.Some? && !IsBlank(note.value) then note.value else Uncategorized
  {
    match note
    case None => Uncategorized
    case Some(n) =>
      TrimmedEmptyIffBlank(n);
      if n != "" && Trim(n) != "" then n else Uncategorized
  }

  /** The total amount of the records filed under `category`. */
  function CategorySum(rs: seq<Record>, category: string): real {
    if rs == [] then 0.0
    else
      var last := rs[|rs| - 1];
      CategorySum(rs[..|rs| - 1], category) + (if Category(last.note) == category then last.amount else 0.0)
  }

  /** The categories the records fall into. */
  function CategoriesOf(rs: seq<Record>): set<string> {
    if rs == [] then {} else CategoriesOf(rs[..|rs| - 1]) + {Category(rs[|rs| - 1].note)}
  }

  /** The category totals of `categories`, added up in order. */
  function SumOverCategories(rs: seq<Record>, categories: seq<string>): real {
    if categories == [] then 0.0
    else SumOverCategories(rs, categories[..|categories| - 1]) + CategorySum(rs, categories[|categories| - 1])
  }

  /** What one record of category `c` and amount `a` adds to the totals of `categories`. */
  function Share(categories: seq<string>, c: string, a: real): real {
    if categories == [] then 0.0
    else Share(categories[..|categories| - 1], c, a) + (if categories[|categories| - 1] == c then a else 0.0)
  }

  lemma {:induction false} ShareOfListedCategory(categories: seq<string>, c: string, a: real)
    requires NoDuplicates(categories)
    ensures Share(categories, c, a) == if c in categories then a else 0.0
    decreases |categories|
  {
    if categories != [] {
      var init := categories[..|categories| - 1];
      assert NoDuplicates(init);
      ShareOfListedCategory(init, c, a);
      assert forall x :: x in categories <==> x in init || x == categories[|categories| - 1];
    }
  }

  lemma {:induction false} SumOverCategoriesStep(rs: seq<Record>, r: Record, categories: seq<string>)
    ensures SumOverCategories(rs + [r], categories)
         == SumOverCategories(rs, categories) + Share(categories, Category(r.note), r.amount)
    decreases |categories|
  {
    if categories != [] {
      SumOverCategoriesStep(rs, r, categories[..|categories| - 1]);
      assert (rs + [r])[..|rs|] == rs;
    }
  }

  lemma {:induction false} SumOverCategoriesOfNone(categories: seq<string>)
    ensures SumOverCategories([], categories) == 0.0
    decreases |categories|
  {
    if categories != [] {
      SumOverCategoriesOfNone(categories[..|categories| - 1]);
    }
  }

  /**
   * Grouping loses and duplicates nothing: the category totals, over any list
   * of distinct categories that covers every record, add up to the total
   * amount of the records.
   */
  lemma {:induction false} CategoryTotalsAddUp(rs: seq<Record>, categories: seq<string>)
    requires NoDuplicates(categories)
    requires forall c :: c in CategoriesOf(rs) ==> c in categories
    ensures SumOverCategories(rs, categories) == SumAmounts(rs)
    decreases |rs|
  {
    if rs == [] {
      SumOverCategoriesOfNone(categories);
    } else {
      var init, last := rs[..|rs| - 1], rs[|rs| - 1];
      CategoryTotalsAddUp(init, categories);
      assert rs == init + [last];
      SumOverCategoriesStep(init, last, categories);
      ShareOfListedCategory(categories, Category(last.note), last.amount);
    }
  }

  /** The values of `grouped` at `keys`, added up in order. */
  function SumOfValues(grouped: map<string, real>, keys: seq<string>): real
    requires forall k :: k in keys ==> k in grouped
  {
    if keys == [] then 0.0 else SumOfValues(grouped, keys[..|keys| - 1]) + grouped[keys[|keys| - 1]]
  }

  lemma {:induction false} SumOfValuesIsSumOverCategories(rs: seq<Record>, grouped: map<string, real>, keys: seq<string>)
    requires forall c :: c in grouped ==> grouped[c] == CategorySum(rs, c)
    requires forall k :: k in keys ==> k in grouped
    ensures SumOfValues(grouped, keys) == SumOverCategories(rs, keys)
    decreases |keys|
  {
    if keys != [] {
      SumOfValuesIsSumOverCategories(rs, grouped, keys[..|keys| - 1]);
    }
  }

  /**
   * The dictionary `GroupExpensesByNote` returns: its values, taken once each
   * in any order, add up to the total amount of the expense records.
   */
  lemma GroupedValuesAddUp(expenseRecords: seq<Record>, grouped: map<string, real>, keys: seq<string>)
    requires grouped.Keys == CategoriesOf(expenseRecords)
    requires forall c :: c in grouped ==> grouped[c] == CategorySum(expenseRecords, c)
    requires NoDuplicates(keys) && forall k :: k in keys <==> k in grouped
    ensures SumOfValues(grouped, keys) == SumAmounts(expenseRecords)
  {
    SumOfValuesIsSumOverCategories(expenseRecords, grouped, keys);
    CategoryTotalsAddUp(expenseRecords, keys);
  }

  /** An empty note and a note of one space both land in 'Uncategorized': 10 + 5. */
  lemma BlankNotesShareUncategorized()
    ensures CategorySum([Record(None, "2024-01-16", Expense, 10.0, Some("")), Record(None, "2024-01-17", Expense, 5.0, Some(" "))], Uncategorized) == 15.0
    ensures CategoriesOf([Record(None, "2024-01-16", Expense, 10.0, Some("")), Record(None, "2024-01-17", Expense, 5.0, Some(" "))]) == {Uncategorized}
  {
    var rs := [Record(None, "2024-01-16", Expense, 10.0, Some("")), Record(None, "2024-01-17", Expense, 5.0, Some(" "))];
    assert IsBlank(" ");
    assert Category(rs[0].note) == Uncategorized && Category(rs[1].note) == Uncategorized;
    assert rs[..1] == [rs[0]] && [rs[0]][..0] == [];
    assert CategorySum([rs[0]], Uncategorized) == 10.0;
    assert CategoriesOf([rs[0]]) == {Uncategorized};
  }

  // The grouping as the source writes it, on a plain `{}` object whose
  // prototype supplies Object.prototype's properties.

  /** A property read from the `grouped` object. */
  datatype Property =
    | Missing         // undefined
    | Number(n: real)
    | Method          // a function inherited from Object.prototype
    | Text            // a string: a function's source text with numbers appended

  /** The function-valued properties every plain object inherits. */
  const InheritedMethodNames: set<string> := {
    "constructor", "hasOwnProperty", "isPrototypeOf", "propertyIsEnumerable",
    "toLocaleString", "toString", "valueOf",
    "__defineGetter__", "__defineSetter__", "__lookupGetter__", "__lookupSetter__"}

  /** The accessor whose setter ignores numbers and strings. */
  const ProtoAccessor: string := "__proto__"

  function Lookup(grouped: map<string, Property>, key: string): Property {
    if key in grouped then grouped[key]
    else if key in InheritedMethodNames then Method
    else Missing
  }

  predicate Truthy(p: Property) {
    match p
    case Missing => false
    case Number(n) => n != 0.0
    case Method => true
    case Text => true
  }

  /** `p + amount`: numeric addition on a number, string concatenation otherwise. */
  function PlusAmount(p: Property, amount: real): Property {
    match p
    case Number(n) => Number(n + amount)
    case Missing => Missing  // not reached: a missing property is falsy
    case Method => Text
    case Text => Text
  }

  /**
   * `groupExpensesByNote` exactly as written, property lookups included:
   * every category gets an own property except '__proto__', whose
   * assignment the accessor swallows.
   */
  function GroupAsWritten(rs: seq<Record>): (grouped: map<string, Property>)
    ensures grouped.Keys == CategoriesOf(rs) - {ProtoAccessor}
  {
    if rs == [] then map[]
    else
      var grouped := GroupAsWritten(rs[..|rs| - 1]);
      var record := rs[|rs| - 1];
      var category := Category(record.note);
      var current := Lookup(grouped, category);
      if category == ProtoAccessor then grouped
      else if Truthy(current) then grouped[category := PlusAmount(current, record.amount)]
      else grouped[category := Number(record.amount)]
  }

  /** An expense noted 'toString' turns its category's total into text. */
  lemma InheritedNameBecomesText()
    ensures GroupAsWritten([Record(None, "2024-01-16", Expense, 5000.0, Some("toString"))])["toString"] == Text
  {
  }

  /** An expense noted '__proto__' vanishes from the grouping. */
  lemma ProtoNoteIsLost()
    ensures GroupAsWritten([Record(None, "2024-01-16", Expense, 5000.0, Some(ProtoAccessor))]) == map[]
    ensures CategorySum([Record(None, "2024-01-16", Expense, 5000.0, Some(ProtoAccessor))], ProtoAccessor) == 5000.0
  {
  }

  /**
   * Away from the prototype's names the source's grouping is right: the
   * truthiness test only ever overwrites a total of 0, and every category
   * holds the sum of its amounts.
   */
  lemma {:induction false} AsWrittenAgreesOffPrototype(rs: seq<Record>)
    ensures forall c :: c in GroupAsWritten(rs) && c !in InheritedMethodNames ==> GroupAsWritten(rs)[c] == Number(CategorySum(rs, c))
    decreases |rs|
  {
    if rs != [] {
      var init := rs[..|rs| - 1];
      AsWrittenAgreesOffPrototype(init);
      var c := Category(rs[|rs| - 1].note);
      if c !in InheritedMethodNames && c != ProtoAccessor && c !in GroupAsWritten(init) {
        CategorySumOutside(init, c);
      }
    }
  }

  lemma {:induction false} CategorySumOutside(rs: seq<Record>, c: string)
    requires c !in CategoriesOf(rs)
    ensures CategorySum(rs, c) == 0.0
    decreases |rs|
  {
    if rs != [] {
      CategorySumOutside(rs[..|rs| - 1], c);
    }
  }

  // ---------------------------------------------------------------------------
  // Monthly series (getMonthlyData)
  // ---------------------------------------------------------------------------

  /** A calendar month; it stands for the label 'Jan 2024' the source builds from a date. */
  datatype MonthKey = MonthKey(year: int, month: int)

  /** Turns a record's date into its month, or None where `new Date(date)` is invalid. */
  type DateParser = string -> Option<MonthKey>

  datatype Bucket = Bucket(income: real, expense: real)

  predicate Before(a: MonthKey, b: MonthKey) {
    a.year < b.year || (a.year == b.year && a.month < b.month)
  }

  /** Strictly ascending months (so also free of duplicates). */
  predicate Chronological(ms: seq<MonthKey>) {
    forall i, j :: 0 <= i < j < |ms| ==> Before(ms[i], ms[j])
  }

  /** The months of the records whose date parses. */
  function MonthsOf(rs: seq<Record>, parse: DateParser): set<MonthKey> {
    if rs == [] then {}
    else
      MonthsOf(rs[..|rs| - 1], parse)
      + (match parse(rs[|rs| - 1].date) case None => {} case Some(m) => {m})
  }

  /** The total amount of the records of type `kind` dated in month `m`. */
  function MonthSum(rs: seq<Record>, parse: DateParser, m: MonthKey, kind: string): real {
    if rs == [] then 0.0
    else
      var last := rs[|rs| - 1];
      MonthSum(rs[..|rs| - 1], parse, m, kind)
      + (if parse(last.date) == Some(m) && last.kind == kind then last.amount else 0.0)
  }

  function InsertChronological(ms: seq<MonthKey>, m: MonthKey): (r: seq<MonthKey>)
    requires Chronological(ms) && m !in ms
    ensures Chronological(r)
    ensures forall x :: x in r <==> x in ms || x == m
    ensures |r| == |ms| + 1
  {
    if ms == [] then [m]
    else if Before(m, ms[0]) then [m] + ms
    else
      var rest := InsertChronological(ms[1..], m);
      assert forall i :: 0 <= i < |rest| ==> Before(ms[0], rest[i]) by {
        forall i | 0 <= i < |rest| ensures Before(ms[0], rest[i]) {
          if rest[i] != m {
            assert rest[i] in rest;
            var j :| 0 <= j < |ms[1..]| && ms[1..][j] == rest[i];
            assert ms[j + 1] == rest[i];
          }
        }
      }
      [ms[0]] + rest
  }

  /** The month keys sorted oldest first (the source's `sort` by date). */
  method SortChronologically(keys: seq<MonthKey>) returns (sorted: seq<MonthKey>)
    requires NoDuplicates(keys)
    ensures Chronological(sorted)
    ensures forall m :: m in sorted <==> m in keys
    ensures |sorted| == |keys|
  {
    sorted := [];
    for i := 0 to |keys|
      invariant Chronological(sorted)
      invariant forall m :: m in sorted <==> m in keys[..i]
      invariant |sorted| == i
    {
      assert keys[i] !in keys[..i];
      sorted := InsertChronological(sorted, keys[i]);
      assert keys[..i + 1] == keys[..i] + [keys[i]];
    }
    assert keys[..|keys|] == keys;
  }

  /** A set of months has one chronological arrangement only. */
  lemma {:induction false} ChronologicalIsUnique(a: seq<MonthKey>, b: seq<MonthKey>)
    requires Chronological(a) && Chronological(b)
    requires forall m :: m in a <==> m in b
    ensures a == b
    decreases |a|
  {
    if a != [] { assert a[0] in a; }
    if b != [] { assert b[0] in b; }
    if a != [] && b != [] {
      assert a[0] in b;
      assert b[0] in a;
      var j :| 0 <= j < |a| && a[j] == b[0];
      var k :| 0 <= k < |b| && b[k] == a[0];
      assert a[0] == b[0];
      forall m ensures m in a[1..] <==> m in b[1..] {
        if m in a[1..] {
          var i :| 0 <= i < |a[1..]| && a[1..][i] == m;
          assert Before(a[0], a[i + 1]);
          assert m in a && m in b;
          var i' :| 0 <= i' < |b| && b[i'] == m;
          assert i' != 0;
          assert b[1..][i' - 1] == m;
        }
        if m in b[1..] {
          var i :| 0 <= i < |b[1..]| && b[1..][i] == m;
          assert Before(b[0], b[i + 1]);
          assert m in b && m in a;
          var i' :| 0 <= i' < |a| && a[i'] == m;
          assert i' != 0;
          assert a[1..][i' - 1] == m;
        }
      }
      ChronologicalIsUnique(a[1..], b[1..]);
    }
  }

  lemma {:induction false} MonthsOfAppend(a: seq<Record>, b: seq<Record>, parse: DateParser)
    ensures MonthsOf(a + b, parse) == MonthsOf(a, parse) + MonthsOf(b, parse)
    decreases |b|
  {
    if b == [] {
      assert a + b == a;
    } else {
      MonthsOfAppend(a, b[..|b| - 1], parse);
      assert (a + b)[..|a + b| - 1] == a + b[..|b| - 1];
    }
  }

  lemma {:induction false} MonthSumAppend(a: seq<Record>, b: seq<Record>, parse: DateParser, m: MonthKey, kind: string)
    ensures MonthSum(a + b, parse, m, kind) == MonthSum(a, parse, m, kind) + MonthSum(b, parse, m, kind)
    decreases |b|
  {
    if b == [] {
      assert a + b == a;
    } else {
      MonthSumAppend(a, b[..|b| - 1], parse, m, kind);
      assert (a + b)[..|a + b| - 1] == a + b[..|b| - 1];
    }
  }

  /**
   * What one record adds to the monthly data, wherever it stands: with an
   * unparseable date, nothing; otherwise its month's bucket, and its amount
   * to that bucket's series of its own type (to neither series if its type
   * is neither 'Income' nor 'Expense').
   */
  lemma RecordContribution(before: seq<Record>, r: Record, after: seq<Record>, parse: DateParser)
    ensures MonthsOf(before + [r] + after, parse)
         == MonthsOf(before + after, parse) + (match parse(r.date) case None => {} case Some(m) => {m})
    ensures forall m, kind ::
              (MonthSum(before + [r] + after, parse, m, kind)
               == MonthSum(before + after, parse, m, kind) + (if parse(r.date) == Some(m) && r.kind == kind then r.amount else 0.0))
  {
    assert [r][..0] == [];
    MonthsWithOneMore(before, r, after, parse);
    forall m, kind
      ensures MonthSum(before + [r] + after, parse, m, kind)
           == MonthSum(before + after, parse, m, kind) + (if parse(r.date) == Some(m) && r.kind == kind then r.amount else 0.0)
    {
      SumWithOneMore(before, r, after, parse, m, kind);
    }
  }

  /** A list is its records before and after position `j` with `s[j]` between them. */
  lemma SplitAt(s: seq<Record>, j: int)
    requires 0 <= j < |s|
    ensures s == s[..j] + [s[j]] + s[j + 1..]
    ensures multiset(s) == multiset(s[..j] + s[j + 1..]) + multiset{s[j]}
  {
  }

  /**
   * The last record of `a` stands somewhere in its permutation `b`, and
   * taking it out of both leaves two permutations of each other.
   */
  lemma MatchLast(a: seq<Record>, b: seq<Record>) returns (j: int)
    requires multiset(a) == multiset(b) && a != []
    ensures 0 <= j < |b| && b[j] == a[|a| - 1]
    ensures b == b[..j] + [b[j]] + b[j + 1..]
    ensures multiset(a[..|a| - 1]) == multiset(b[..j] + b[j + 1..])
  {
    var x := a[|a| - 1];
    assert x in multiset(b);
    j :| 0 <= j < |b| && b[j] == x;
    SplitAt(a, |a| - 1);
    SplitAt(b, j);
    assert a[..|a| - 1] + a[|a|..] == a[..|a| - 1];
    var rest, rest' := multiset(a[..|a| - 1]), multiset(b[..j] + b[j + 1..]);
    forall y ensures rest[y] == rest'[y] {
      assert (rest + multiset{x})[y] == (rest' + multiset{x})[y];
    }
  }

  /** Permuting the records leaves the set of months as it was. */
  lemma {:induction false} MonthsOfIgnoresOrder(a: seq<Record>, b: seq<Record>, parse: DateParser)
    requires multiset(a) == multiset(b)
    ensures MonthsOf(a, parse) == MonthsOf(b, parse)
    decreases |a|
  {
    if a == [] {
      assert |b| == |multiset(b)| == 0;
    } else {
      var j := MatchLast(a, b);
      var init, x, before, after := a[..|a| - 1], a[|a| - 1], b[..j], b[j + 1..];
      MonthsOfIgnoresOrder(init, before + after, parse);
      MonthsWithOneMore(init, x, [], parse);
      MonthsWithOneMore(before, x, after, parse);
      assert a == init + [x] + [] && init + [] == init;
    }
  }

  lemma MonthsWithOneMore(before: seq<Record>, x: Record, after: seq<Record>, parse: DateParser)
    ensures MonthsOf(before + [x] + after, parse) == MonthsOf(before + after, parse) + MonthsOf([x], parse)
  {
    MonthsOfAppend(before + [x], after, parse);
    MonthsOfAppend(before, [x], parse);
    MonthsOfAppend(before, after, parse);
  }

  /** Permuting the records leaves every bucket's sum as it was. */
  lemma {:induction false} MonthSumIgnoresOrder(a: seq<Record>, b: seq<Record>, parse: DateParser, m: MonthKey, kind: string)
    requires multiset(a) == multiset(b)
    ensures MonthSum(a, parse, m, kind) == MonthSum(b, parse, m, kind)
    decreases |a|
  {
    if a == [] {
      assert |b| == |multiset(b)| == 0;
    } else {
      var j := MatchLast(a, b);
      var init, x, before, after := a[..|a| - 1], a[|a| - 1], b[..j], b[j + 1..];
      MonthSumIgnoresOrder(init, before + after, parse, m, kind);
      SumWithOneMore(init, x, [], parse, m, kind);
      SumWithOneMore(before, x, after, parse, m, kind);
      assert a == init + [x] + [] && init + [] == init;
    }
  }

  lemma SumWithOneMore(before: seq<Record>, x: Record, after: seq<Record>, parse: DateParser, m: MonthKey, kind: string)
    ensures MonthSum(before + [x] + after, parse, m, kind) == MonthSum(before + after, parse, m, kind) + MonthSum([x], parse, m, kind)
  {
    MonthSumAppend(before + [x], after, parse, m, kind);
    MonthSumAppend(before, [x], parse, m, kind);
    MonthSumAppend(before, after, parse, m, kind);
  }

  /**
   * The input order does not matter: two record lists holding the same
   * records, in whatever order, have the same months and the same sums in
   * every bucket, so (by `ChronologicalIsUnique`) `GetMonthlyData` returns
   * the same three series for both.
   */
  lemma MonthlyDataIgnoresOrder(a: seq<Record>, b: seq<Record>, parse: DateParser)
    requires multiset(a) == multiset(b)
    ensures MonthsOf(a, parse) == MonthsOf(b, parse)
    ensures forall m, kind :: MonthSum(a, parse, m, kind) == MonthSum(b, parse, m, kind)
  {
    MonthsOfIgnoresOrder(a, b, parse);
    forall m, kind ensures MonthSum(a, parse, m, kind) == MonthSum(b, parse, m, kind) {
      MonthSumIgnoresOrder(a, b, parse, m, kind);
    }
  }

  // ---------------------------------------------------------------------------
  // Edit (editRecord)
  // ---------------------------------------------------------------------------

  /** `{...record, ...updatedRecord}`: the object `editRecord` sends for update. */
  function EditedRecord(record: Record, updated: RecordModal.FormValue): (e: Object)
    ensures e.Keys == RecordObject(record).Keys
    ensures "id" in e <==> record.id.Some?
    ensures record.id.Some? ==> e["id"] == Num(record.id.value as real)
    ensures e["date"] == Str(updated.date) && e["type"] == Str(updated.kind) && e["note"] == NoteValue(updated.note)
    ensures e["amount"] == (if updated.amount.Some? then Num(updated.amount.value) else Null)
  {
    Spread(RecordObject(record), RecordModal.FormObject(updated))
  }

  /**
   * For a form with an amount (every form that passed validation) the
   * edited record is exactly the original record with its four data fields
   * replaced by the form's, and its id kept.
   */
  lemma EditKeepsId(record: Record, updated: RecordModal.FormValue)
    ensures updated.amount.Some? ==>
              EditedRecord(record, updated)
              == RecordObject(Record(record.id, updated.date, updated.kind, updated.amount.value, updated.note))
  {
  }
}
