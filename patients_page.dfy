/**
 * The patient directory page: initials and age shown for each patient, the
 * search, sex filter and sort the list goes through, and the male/female
 * counters.  The current date and the parsed birth date (and its
 * timestamp) are parameters; `localeCompare` is modelled as code-unit order
 * of the lower-cased keys.
 */
module PatientsPage {
  import opened Wrappers
  import opened JsText
  import opened CivilDates
  import Lists
  import Sorting

  datatype Sex = Male | Female

  /**
   * A patient record as loaded.  `dob` is the stored text, `birth` its
   * calendar date and `dobTime` its `getTime()` value, `None` for `NaN`.
   */
  datatype Patient = Patient(
    id: string, firstName: string, lastName: string, email: string, phone: string,
    sex: Sex, dob: string, birth: Option<Date>, dobTime: Option<int>)

  // ------------------------------------------------------------- initials

  /** `trim()[0] || ''`: the first character of a trimmed name, or "". */
  function FirstLetter(name: string): (r: string)
    ensures |r| <= 1
    ensures r == "" <==> AllWhitespace(name)
    ensures r != "" ==> SkipWhitespace(name, 0) < |name| && r[0] == name[SkipWhitespace(name, 0)]
  {
    var t := Trim(name);
    if t == [] then "" else TrimHead(name); [t[0]]
  }

  /** The trimmed text starts at the first character that is not whitespace. */
  lemma TrimHead(s: string)
    requires Trim(s) != []
    ensures SkipWhitespace(s, 0) < |s| && Trim(s)[0] == s[SkipWhitespace(s, 0)]
  {
    var i := SkipWhitespace(s, 0);
    var t := TrimStart(s);
    assert t == s[i..];
    var r := TrimEnd(t);
    assert r == t[..|r|];
  }

  /**
   * `getInitials`: the upper-cased first letters of the trimmed first and
   * last names; at most two characters, empty exactly when both are blank.
   */
  function Initials(first: string, last: string): (r: string)
    ensures |r| <= 2
    ensures r == "" <==> AllWhitespace(first) && AllWhitespace(last)
    ensures !AllWhitespace(first) ==> r[0] == UpperChar(FirstLetter(first)[0])
    ensures !AllWhitespace(last) ==> r[|r| - 1] == UpperChar(FirstLetter(last)[0])
    ensures |r| == 2 <==> !AllWhitespace(first) && !AllWhitespace(last)
  {
    ToUpper(FirstLetter(first) + FirstLetter(last))
  }

  // ------------------------------------------------------------------ age

  /** By `today`, the birthday `years` years after `birth` has come. */
  predicate Reached(birth: Date, today: Date, years: int) {
    birth.year + years < today.year
    || (birth.year + years == today.year
        && (birth.month < today.month || (birth.month == today.month && birth.day <= today.day)))
  }

  /**
   * The year difference, one less while this year's birthday is still to
   * come: the number of completed years, i.e. the last birthday reached.
   */
  function Age(birth: Date, today: Date): (age: int)
    ensures Reached(birth, today, age) && !Reached(birth, today, age + 1)
  {
    var age := today.year - birth.year;
    var m := today.month - birth.month;
    if m < 0 || (m == 0 && today.day < birth.day) then age - 1 else age
  }

  /** Exactly one count of years meets the characterisation, so `Age` is determined by it. */
  lemma AgeUnique(birth: Date, today: Date, years: int)
    requires Reached(birth, today, years) && !Reached(birth, today, years + 1)
    ensures years == Age(birth, today)
  {
  }

  /** Someone born on `today`'s date in an earlier year is exactly that many years old. */
  lemma AgeOnBirthday(birth: Date, today: Date)
    requires birth.month == today.month && birth.day == today.day
    ensures Age(birth, today) == today.year - birth.year
  {
  }

  /** `getAge`: "-" for a missing or unparsable date of birth, otherwise the age in decimal. */
  function AgeText(dob: string, birth: Option<Date>, today: Date): (r: string)
    ensures r == "-" <==> dob == "" || birth.None?
    ensures r != "-" ==> r == IntToString(Age(birth.value, today))
  {
    if dob == "" || birth.None? then "-" else IntToString(Age(birth.value, today))
  }

  // --------------------------------------------------------------- search

  /** The search box's text, trimmed and lower-cased. */
  function SearchTerm(search: string): string {
    ToLower(Trim(search))
  }

  /** The term occurs in "first last", in the email or in the phone, all lower-cased. */
  predicate MatchesTerm(term: string, p: Patient) {
    Includes(ToLower(p.firstName + " " + p.lastName), term)
    || Includes(ToLower(p.email), term)
    || Includes(ToLower(p.phone), term)
  }

  /** The search stage: every patient for an empty term, otherwise those matching it, in order. */
  function SearchStage(items: seq<Patient>, search: string): (r: seq<Patient>)
    ensures SearchTerm(search) == "" ==> r == items
    ensures forall p :: p in r <==> p in items && (SearchTerm(search) == "" || MatchesTerm(SearchTerm(search), p))
  {
    var term := SearchTerm(search);
    Lists.FilterMembers(items, (p: Patient) => MatchesTerm(term, p));
    if term == "" then items else Lists.Filter(items, (p: Patient) => MatchesTerm(term, p))
  }

  /** A search of whitespace only filters nothing out. */
  lemma BlankSearchKeepsAll(items: seq<Patient>, search: string)
    requires AllWhitespace(search)
    ensures SearchStage(items, search) == items
  {
  }

  datatype SexFilter = AnySex | OnlySex(sex: Sex)

  /** The sex filter: 'all' keeps everyone, otherwise exact matches, in order. */
  function SexStage(items: seq<Patient>, f: SexFilter): (r: seq<Patient>)
    ensures f.AnySex? ==> r == items
    ensures forall p :: p in r <==> p in items && (f.AnySex? || p.sex == f.sex)
  {
    if f.AnySex? then items
    else
      Lists.FilterMembers(items, (p: Patient) => p.sex == f.sex);
      Lists.Filter(items, (p: Patient) => p.sex == f.sex)
  }

  // ------------------------------------------------------------------ sort

  datatype SortOrder = NameAsc | NameDesc | DobDesc | DobAsc

  /** "last first", lower-cased: the key of the name orders. */
  function NameKey(p: Patient): string {
    ToLower(p.lastName + " " + p.firstName)
  }

  /**
   * The comparator read as "may come first": `cmp(a, b) <= 0`.  A `NaN`
   * difference of timestamps counts as 0, as `sort` reads it.
   */
  function SortLe(order: SortOrder): (Patient, Patient) -> bool {
    (a: Patient, b: Patient) =>
      match order
      case NameAsc => Sorting.StringLe(NameKey(a), NameKey(b))
      case NameDesc => Sorting.StringLe(NameKey(b), NameKey(a))
      case DobDesc => a.dobTime.None? || b.dobTime.None? || b.dobTime.value <= a.dobTime.value
      case DobAsc => a.dobTime.None? || b.dobTime.None? || a.dobTime.value <= b.dobTime.value
  }

  /** Records whose timestamp is a number; the date orders are preorders on these. */
  predicate Dated(p: Patient) {
    p.dobTime.Some?
  }

  /** `filteredPatients`: search, then the sex filter, then a stable sort of a copy. */
  function FilteredPatients(items: seq<Patient>, search: string, f: SexFilter, order: SortOrder): (r: seq<Patient>)
    ensures multiset(r) == multiset(SexStage(SearchStage(items, search), f))
    ensures forall p :: p in r <==>
      (p in items && (SearchTerm(search) == "" || MatchesTerm(SearchTerm(search), p)) && (f.AnySex? || p.sex == f.sex))
  {
    var r := Sorting.SortBy(SexStage(SearchStage(items, search), f), SortLe(order));
    assert forall p :: p in r <==> p in multiset(r);
    r
  }

  /** Any patient at all: the domain on which the name orders are preorders. */
  predicate AnyPatient(p: Patient) {
    true
  }

  /** Every order is total and transitive on dated patients. */
  lemma SortLePreorderDated(order: SortOrder)
    ensures Sorting.PreorderOn(SortLe(order), Dated)
  {
    var le := SortLe(order);
    forall a, b | Dated(a) && Dated(b) ensures le(a, b) || le(b, a) {
      Sorting.StringLeTotal(NameKey(a), NameKey(b));
    }
    forall a, b, c | Dated(a) && Dated(b) && Dated(c) && le(a, b) && le(b, c) ensures le(a, c) {
      if order.NameAsc? {
        Sorting.StringLeTransitive(NameKey(a), NameKey(b), NameKey(c));
      } else if order.NameDesc? {
        Sorting.StringLeTransitive(NameKey(c), NameKey(b), NameKey(a));
      }
    }
  }

  /** The name orders are total and transitive on all patients. */
  lemma SortLePreorderNames(order: SortOrder)
    requires order.NameAsc? || order.NameDesc?
    ensures Sorting.PreorderOn(SortLe(order), AnyPatient)
  {
    var le := SortLe(order);
    forall a, b ensures le(a, b) || le(b, a) {
      Sorting.StringLeTotal(NameKey(a), NameKey(b));
    }
    forall a, b, c | le(a, b) && le(b, c) ensures le(a, c) {
      if order.NameAsc? {
        Sorting.StringLeTransitive(NameKey(a), NameKey(b), NameKey(c));
      } else {
        Sorting.StringLeTransitive(NameKey(c), NameKey(b), NameKey(a));
      }
    }
  }

  /**
   * The result is in the chosen order: always for the name orders, and for
   * the date orders whenever every patient's date of birth parses.
   */
  lemma FilteredPatientsSorted(items: seq<Patient>, search: string, f: SexFilter, order: SortOrder)
    requires order.DobAsc? || order.DobDesc? ==> forall k :: 0 <= k < |items| ==> Dated(items[k])
    ensures Sorting.SortedBy(FilteredPatients(items, search, f, order), SortLe(order))
  {
    var kept := SexStage(SearchStage(items, search), f);
    assert FilteredPatients(items, search, f, order) == Sorting.SortBy(kept, SortLe(order));
    if order.DobAsc? || order.DobDesc? {
      StagesKeepDated(items, search, f);
      SortLePreorderDated(order);
      Sorting.SortBySorted(kept, SortLe(order), Dated);
    } else {
      SortLePreorderNames(order);
      Sorting.SortBySorted(kept, SortLe(order), AnyPatient);
    }
  }

  lemma StagesKeepDated(items: seq<Patient>, search: string, f: SexFilter)
    requires forall k :: 0 <= k < |items| ==> Dated(items[k])
    ensures var kept := SexStage(SearchStage(items, search), f);
      forall k :: 0 <= k < |kept| ==> Dated(kept[k])
  {
    var kept := SexStage(SearchStage(items, search), f);
    forall k | 0 <= k < |kept| ensures Dated(kept[k]) {
      assert kept[k] in items;
    }
  }

  /** The list handed in is the one the page renders from: nothing is dropped past the filters, nothing added. */
  lemma FilteredPatientsLength(items: seq<Patient>, f: SexFilter, order: SortOrder)
    ensures |FilteredPatients(items, "", f, order)| == |SexStage(items, f)|
    ensures f.AnySex? ==> multiset(FilteredPatients(items, "", f, order)) == multiset(items)
  {
    assert SearchTerm("") == "" by {
      assert AllWhitespace("");
    }
  }

  // --------------------------------------------------------------- counts

  function MaleCount(items: seq<Patient>): nat {
    Lists.Count(items, (p: Patient) => p.sex == Male)
  }

  function FemaleCount(items: seq<Patient>): nat {
    Lists.Count(items, (p: Patient) => p.sex == Female)
  }

  /** Each loaded patient is counted by exactly one of the two counters. */
  lemma CountsCoverItems(items: seq<Patient>)
    ensures MaleCount(items) + FemaleCount(items) == |items|
    ensures MaleCount(items) + FemaleCount(items) <= |items|
  {
    Lists.CountSplit(items, (p: Patient) => p.sex == Male, (p: Patient) => p.sex == Female);
  }
}
