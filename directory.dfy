/**
 * The farmer directory of the main dashboard's networking page
 * (`farmer_network_page` in app.py): registering a farm under a fresh
 * zero-padded farmer id, and the three-stage filter over the directory
 * (location, farm type, case-insensitive search).
 */
module Directory {

  import opened Text

  /** What the registration form collects. */
  datatype RegistrationForm = RegistrationForm(
    farmerName: string,
    farmName: string,
    location: string,
    contactPhone: string,
    contactEmail: string,
    farmType: string,
    farmSize: string,
    specializations: seq<string>,
    additionalInfo: string)

  /** A directory entry; the registration timestamp is not modelled. */
  datatype Farmer = Farmer(
    farmerName: string,
    farmName: string,
    location: string,
    contactPhone: string,
    contactEmail: string,
    farmType: string,
    farmSize: string,
    specializations: seq<string>,
    additionalInfo: string,
    verified: bool)

  /** Farmer ids are keys of the directory. */
  type FarmerDirectory = map<string, Farmer>

  /** `f"farmer_{n:03d}"`. */
  function FarmerId(n: nat): (id: string)
    ensures |id| >= 10 && id[..7] == "farmer_"
  {
    "farmer_" + ZeroPad(n, 3)
  }

  /** Different numbers give different farmer ids. */
  lemma FarmerIdInjective(a: nat, b: nat)
    requires FarmerId(a) == FarmerId(b)
    ensures a == b
  {
    assert FarmerId(a)[7..] == ZeroPad(a, 3);
    assert FarmerId(b)[7..] == ZeroPad(b, 3);
    ZeroPadInjective(a, b, 3);
  }

  /** Up to `farmer_999` the id is exactly ten characters long. */
  lemma FarmerIdLength(n: nat)
    requires n < 1000
    ensures |FarmerId(n)| == 10
  {
    assert Pow10(3) == 1000;
    ZeroPadExactWidth(n, 3);
  }

  /** The form is accepted only on submit with farmer name, farm name and location filled in. */
  predicate Accepted(submitted: bool, form: RegistrationForm) {
    submitted && form.farmerName != "" && form.farmName != "" && form.location != ""
  }

  /** The entry a registration stores: the form's fields, not yet verified. */
  function NewEntry(form: RegistrationForm): (f: Farmer)
    ensures !f.verified
  {
    Farmer(form.farmerName, form.farmName, form.location, form.contactPhone, form.contactEmail,
           form.farmType, form.farmSize, form.specializations, form.additionalInfo, false)
  }

  /** The id a registration gets: one more than the number of registered farmers. */
  function NextFarmerId(dir: FarmerDirectory): string {
    FarmerId(|dir| + 1)
  }

  /** The directory after the registration form was handled. */
  function Register(dir: FarmerDirectory, submitted: bool, form: RegistrationForm): (r: FarmerDirectory)
    ensures !Accepted(submitted, form) ==> r == dir
    ensures Accepted(submitted, form) ==>
      && NextFarmerId(dir) in r
      && r[NextFarmerId(dir)] == NewEntry(form)
      && !r[NextFarmerId(dir)].verified
      && forall k :: k != NextFarmerId(dir) ==> (k in r <==> k in dir) && (k in r ==> r[k] == dir[k])
  {
    if Accepted(submitted, form) then dir[NextFarmerId(dir) := NewEntry(form)] else dir
  }

  /** The ids `farmer_001` up to the `n`-th. */
  function IdsUpTo(n: nat): set<string> {
    if n == 0 then {} else IdsUpTo(n - 1) + {FarmerId(n)}
  }

  /** No id beyond the `n`-th is among the first `n`. */
  lemma {:induction false} IdsUpToExcludesLater(n: nat, m: nat)
    requires m > n
    ensures FarmerId(m) !in IdsUpTo(n)
  {
    if n > 0 {
      IdsUpToExcludesLater(n - 1, m);
      if FarmerId(m) == FarmerId(n) {
        FarmerIdInjective(m, n);
      }
    }
  }

  /** The directory's keys are exactly `farmer_001` up to its size, as registration produces them. */
  predicate DenselyNumbered(dir: FarmerDirectory) {
    dir.Keys == IdsUpTo(|dir|)
  }

  /**
   * In a densely numbered directory the id a registration assigns is not
   * taken, so a registration adds exactly one farmer and keeps the numbering
   * dense.
   */
  lemma RegisterKeepsNumberingDense(dir: FarmerDirectory, submitted: bool, form: RegistrationForm)
    requires DenselyNumbered(dir)
    ensures NextFarmerId(dir) !in dir
    ensures Accepted(submitted, form) ==> |Register(dir, submitted, form)| == |dir| + 1
    ensures DenselyNumbered(Register(dir, submitted, form))
  {
    var n, id := |dir|, NextFarmerId(dir);
    IdsUpToExcludesLater(n, n + 1);
    if Accepted(submitted, form) {
      var r := dir[id := NewEntry(form)];
      assert r.Keys == dir.Keys + {id};
      assert IdsUpTo(n + 1) == IdsUpTo(n) + {id};
      assert |r| == n + 1;
    }
  }

  /** The two farmers the store's stub directory holds. */
  const StubDirectory: FarmerDirectory := map[
    "farmer_001" := Farmer("Amit", "Amit Farms", "Kolkata", "1234567890", "amit@example.com",
                           "Pig Farm", "Large (> 500 animals)", ["Breeding"], "", true),
    "farmer_002" := Farmer("Priya", "Priya Poultry", "Delhi", "9876543210", "priya@example.com",
                           "Poultry Farm", "Medium (100-500 animals)", ["Feed Production"], "", false)
  ]

  /** The stub directory is densely numbered, so the next registration becomes `farmer_003`. */
  lemma StubDirectoryNextId()
    ensures DenselyNumbered(StubDirectory)
    ensures NextFarmerId(StubDirectory) == "farmer_003"
  {
    assert FarmerId(1) == "farmer_001" by {
      assert ZeroPad(1, 3) == "001";
    }
    assert FarmerId(2) == "farmer_002" by {
      assert ZeroPad(2, 3) == "002";
    }
    assert FarmerId(3) == "farmer_003" by {
      assert ZeroPad(3, 3) == "003";
    }
    assert IdsUpTo(2) == {FarmerId(1), FarmerId(2)} by {
      assert IdsUpTo(1) == {FarmerId(1)};
    }
    assert StubDirectory.Keys == {"farmer_001", "farmer_002"};
    assert |StubDirectory| == 2;
  }

  // ---------------------------------------------------------------------
  // Filtering

  /** The selectbox value that disables a filter. */
  const All: string := "All"

  /** Some specialization contains `term` once lower-cased. */
  predicate SpecializationHit(specs: seq<string>, term: string) {
    exists j :: 0 <= j < |specs| && Contains(Lower(specs[j]), term)
  }

  /** The search test for a lower-cased term: farmer name, farm name or a specialization. */
  predicate SearchHit(f: Farmer, term: string) {
    Contains(Lower(f.farmerName), term)
    || Contains(Lower(f.farmName), term)
    || SpecializationHit(f.specializations, term)
  }

  /** The location stage: "All" keeps everyone, otherwise only farmers at that location. */
  function ByLocation(dir: FarmerDirectory, location: string): (r: FarmerDirectory)
    ensures forall k :: k in r <==> k in dir && (location == All || dir[k].location == location)
    ensures forall k :: k in r ==> r[k] == dir[k]
  {
    if location == All then dir
    else map k | k in dir && dir[k].location == location :: dir[k]
  }

  /** The farm-type stage: "All" keeps everyone, otherwise only farms of that type. */
  function ByFarmType(dir: FarmerDirectory, farmType: string): (r: FarmerDirectory)
    ensures forall k :: k in r <==> k in dir && (farmType == All || dir[k].farmType == farmType)
    ensures forall k :: k in r ==> r[k] == dir[k]
  {
    if farmType == All then dir
    else map k | k in dir && dir[k].farmType == farmType :: dir[k]
  }

  /** The search stage: an empty term keeps everyone; otherwise the term is lower-cased before the test. */
  function BySearch(dir: FarmerDirectory, term: string): (r: FarmerDirectory)
    ensures forall k :: k in r <==> k in dir && (term == "" || SearchHit(dir[k], Lower(term)))
    ensures forall k :: k in r ==> r[k] == dir[k]
  {
    if term == "" then dir
    else
      var t := Lower(term);
      map k | k in dir && SearchHit(dir[k], t) :: dir[k]
  }

  /** The directory listing after the three filters, applied in page order; it never adds or alters an entry. */
  function FilterDirectory(dir: FarmerDirectory, location: string, farmType: string, term: string): (r: FarmerDirectory)
    ensures r.Keys <= dir.Keys
    ensures forall k :: k in r ==> r[k] == dir[k]
  {
    BySearch(ByFarmType(ByLocation(dir, location), farmType), term)
  }

  /** One farmer passes all three filters. */
  predicate Matches(f: Farmer, location: string, farmType: string, term: string) {
    && (location == All || f.location == location)
    && (farmType == All || f.farmType == farmType)
    && (term == "" || SearchHit(f, Lower(term)))
  }

  /** The listing is a sub-directory: no new keys, entries unchanged. */
  lemma FilterIsSubset(dir: FarmerDirectory, location: string, farmType: string, term: string)
    ensures var r := FilterDirectory(dir, location, farmType, term);
      r.Keys <= dir.Keys && forall k :: k in r ==> r[k] == dir[k]
  {
  }

  /** A farmer is listed exactly when it passes every filter. */
  lemma FilterIff(dir: FarmerDirectory, location: string, farmType: string, term: string, k: string)
    ensures k in FilterDirectory(dir, location, farmType, term) <==> k in dir && Matches(dir[k], location, farmType, term)
  {
  }

  /** With both selectboxes on "All" and no search term the whole directory is listed. */
  lemma NoFilterListsAll(dir: FarmerDirectory)
    ensures FilterDirectory(dir, All, All, "") == dir
  {
  }

  /** The search does not depend on the case of the term. */
  lemma SearchIgnoresCase(dir: FarmerDirectory, location: string, farmType: string, term: string)
    ensures FilterDirectory(dir, location, farmType, Lower(term)) == FilterDirectory(dir, location, farmType, term)
  {
    LowerIdempotent(term);
  }

  /** A term that occurs in a farmer's lower-cased name finds that farmer. */
  lemma NameSearchFinds(dir: FarmerDirectory, k: string, term: string)
    requires k in dir
    requires term != ""
    requires Contains(Lower(dir[k].farmerName), Lower(term))
    ensures k in FilterDirectory(dir, All, All, term)
  {
  }
}
