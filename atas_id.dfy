/**
 * The ATAS identifier allocator and validator (src/services/atasIdService.ts).
 *
 * An identifier reads `ATAS-{country code}-{year}-{user number}`: the country
 * code comes from a fixed table, the year is the current year, and the user
 * number is a counter held by the service and bumped before every allocation.
 * Each allocation also issues a six-digit access code and is appended to a
 * locally stored list. The current year, the clock and the random bytes are
 * parameters.
 */
module AtasId {
  import opened Wrappers
  import opened Text

  /** COUNTRY_CODES, in declaration order: country name to three-letter code. */
  const CountryTable: seq<(string, string)> := [
    ("India", "IND"), ("United States", "USA"), ("United Kingdom", "GBR"), ("Canada", "CAN"),
    ("Australia", "AUS"), ("Germany", "DEU"), ("France", "FRA"), ("Japan", "JPN"),
    ("Singapore", "SGP"), ("Brazil", "BRA"), ("Russia", "RUS"), ("China", "CHN"),
    ("South Korea", "KOR"), ("Netherlands", "NLD"), ("Sweden", "SWE"), ("Norway", "NOR"),
    ("Denmark", "DNK"), ("Finland", "FIN"), ("Switzerland", "CHE"), ("UAE", "UAE"),
    ("Saudi Arabia", "SAU"), ("South Africa", "ZAF"), ("Nigeria", "NGA"), ("Egypt", "EGY"),
    ("Mexico", "MEX"), ("Argentina", "ARG"), ("Chile", "CHL"), ("Israel", "ISR"),
    ("Turkey", "TUR"), ("Thailand", "THA"), ("Indonesia", "IDN"), ("Malaysia", "MYS"),
    ("Philippines", "PHL"), ("Vietnam", "VNM"), ("Pakistan", "PAK"), ("Bangladesh", "BGD"),
    ("Sri Lanka", "LKA"), ("Default", "INT")
  ]

  /** The international fallback, the table's value under the key 'Default'. */
  const Fallback: string := "INT"

  /** Identifiers with a year before this one are rejected. */
  const LaunchYear: nat := 2025

  predicate IsTableCode(code: string)
  {
    exists i :: 0 <= i < |CountryTable| && CountryTable[i].1 == code
  }

  predicate IsTableName(name: string)
  {
    exists i :: 0 <= i < |CountryTable| && CountryTable[i].0 == name
  }

  /** Three upper-case ASCII letters: what the validator's format accepts as a country code. */
  predicate IsCodeShape(code: string)
  {
    |code| == 3 && IsUpperAscii(code[0]) && IsUpperAscii(code[1]) && IsUpperAscii(code[2])
  }

  /** The value under the first entry of `t` whose key is `name`. */
  function Lookup(t: seq<(string, string)>, name: string): (r: Option<string>)
    ensures r.Some? <==> exists i :: 0 <= i < |t| && t[i].0 == name
    ensures r.Some? ==> exists i :: 0 <= i < |t| && t[i] == (name, r.value) &&
                                    forall j :: 0 <= j < i ==> t[j].0 != name
  {
    if t == [] then None
    else if t[0].0 == name then Some(t[0].1)
    else
      var r := Lookup(t[1..], name);
      assert forall i :: 1 <= i < |t| ==> t[i] == t[1..][i - 1];
      r
  }

  /** Every code in the table has the validator's shape. */
  lemma TableCodesHaveShape()
    ensures forall i :: 0 <= i < |CountryTable| ==> IsCodeShape(CountryTable[i].1)
  {
  }

  /**
   * getCountryCode: the trimmed name's code, or the international fallback
   * for a name the table does not list. The result is always a table code.
   */
  function CountryCode(countryName: string): (code: string)
    ensures IsTableCode(code)
    ensures IsTableName(JsTrim(countryName)) ==>
              exists i :: 0 <= i < |CountryTable| && CountryTable[i] == (JsTrim(countryName), code)
    ensures !IsTableName(JsTrim(countryName)) ==> code == Fallback
  {
    match Lookup(CountryTable, JsTrim(countryName))
    case Some(c) =>
      var i :| 0 <= i < |CountryTable| && CountryTable[i] == (JsTrim(countryName), c);
      assert CountryTable[i].1 == c;
      c
    case None => assert CountryTable[37].1 == Fallback; Fallback
  }

  // ---------------------------------------------------------------------------
  // Finding: the table is a plain object literal, so a lookup by name also
  // finds the members every object inherits from Object.prototype.

  /** The property names every object literal inherits from Object.prototype. */
  const ObjectPrototypeMembers: set<string> := {
    "constructor", "hasOwnProperty", "isPrototypeOf", "propertyIsEnumerable",
    "toLocaleString", "toString", "valueOf", "__proto__",
    "__defineGetter__", "__defineSetter__", "__lookupGetter__", "__lookupSetter__"
  }

  /** What `COUNTRY_CODES[name]` yields: a string of the table, or an inherited function or object. */
  datatype PropertyValue = TableString(s: string) | InheritedMember(name: string)

  /** getCountryCode as written: an inherited member is truthy, so `||` does not fall back. */
  function CountryCodeAsWritten(countryName: string): (v: PropertyValue)
    ensures v.TableString? ==> v.s == CountryCode(countryName)
    ensures v.InheritedMember? <==> !IsTableName(JsTrim(countryName)) && JsTrim(countryName) in ObjectPrototypeMembers
  {
    var name := JsTrim(countryName);
    match Lookup(CountryTable, name)
    case Some(c) => TableString(c)
    case None => if name in ObjectPrototypeMembers then InheritedMember(name) else TableString(Fallback)
  }

  /** Every country name in the table starts with an upper-case letter. */
  lemma TableNamesCapitalised()
    ensures forall i :: 0 <= i < |CountryTable| ==> |CountryTable[i].0| > 0 && IsUpperAscii(CountryTable[i].0[0])
  {
  }

  /** No name an object inherits from Object.prototype starts with an upper-case letter. */
  lemma PrototypeNamesNotCapitalised()
    ensures forall m :: m in ObjectPrototypeMembers ==> |m| > 0 && !IsUpperAscii(m[0])
  {
  }

  /**
   * A country name that trims to an inherited member's name yields that
   * member instead of a code, while the corrected lookup falls back to INT.
   */
  lemma CountryCodeAsWrittenEscapesTable(countryName: string)
    requires JsTrim(countryName) in ObjectPrototypeMembers
    ensures CountryCodeAsWritten(countryName) == InheritedMember(JsTrim(countryName))
    ensures CountryCode(countryName) == Fallback
  {
    PrototypeNameNotInTable(JsTrim(countryName));
  }

  /** No inherited member's name is a country name of the table. */
  lemma PrototypeNameNotInTable(name: string)
    requires name in ObjectPrototypeMembers
    ensures !IsTableName(name)
  {
    PrototypeNamesNotCapitalised();
    TableNamesCapitalised();
    assert |name| > 0 && !IsUpperAscii(name[0]);
  }

  // ---------------------------------------------------------------------------
  // Rendering and validation.

  /** The identifier text: the user number is left-padded to four digits and never truncated. */
  function RenderId(countryCode: string, year: nat, userNumber: int): (id: string)
    ensures |id| > 6 + |countryCode| && id[..5] == "ATAS-" && id[5..5 + |countryCode|] == countryCode
    ensures id[5 + |countryCode|] == '-'
  {
    "ATAS-" + countryCode + "-" + Decimal(year) + "-" + PadStart(IntString(userNumber), 4, '0')
  }

  /** `/^ATAS-([A-Z]{3})-(\d{4})-(\d{4})$/` */
  predicate MatchesIdFormat(s: string): (ok: bool)
    ensures ok ==> |s| == 18 && AllDigits(s[9..13]) && AllDigits(s[14..]) &&
                   ParseDigits(s[9..13]) < 10000 && ParseDigits(s[14..]) < 10000
  {
    && |s| == 18
    && s[..5] == "ATAS-"
    && IsCodeShape(s[5..8])
    && s[8] == '-'
    && AllDigits(s[9..13])
    && s[13] == '-'
    && AllDigits(s[14..])
  }

  /** Why an identifier was rejected. */
  datatype Rejection =
    | BadFormat
    | YearOutOfRange(year: nat)
    | UnknownCountry(code: string)
    | NonPositiveNumber(userNumber: nat)

  /** The result of validateATASID: the parsed fields, or the first check that failed. */
  datatype Validation = Valid(countryCode: string, year: nat, userNumber: nat) | Invalid(reason: Rejection)

  /** The reason string the service reports for a rejection. */
  function ReasonText(r: Rejection): string
  {
    match r
    case BadFormat => "Invalid ATAS ID format. Expected: ATAS-COUNTRYCODE-YEAR-NUMBER"
    case YearOutOfRange(y) => "Invalid year: " + Decimal(y) + ". ATAS IDs started in 2025."
    case UnknownCountry(c) => "Invalid country code: " + c
    case NonPositiveNumber(n) => "Invalid user number: " + Decimal(n)
  }

  /**
   * validateATASID: format first, then the year window
   * [LaunchYear, currentYear + 1], then the country code, then a positive
   * user number. An accepted identifier is exactly the rendering of its fields.
   */
  function ValidateId(atasId: string, currentYear: int): (v: Validation)
    ensures !MatchesIdFormat(atasId) ==> v == Invalid(BadFormat)
    ensures v.Valid? ==> IsTableCode(v.countryCode) && LaunchYear <= v.year <= currentYear + 1 && 1 <= v.userNumber <= 9999
    ensures v.Valid? ==> RenderId(v.countryCode, v.year, v.userNumber) == atasId
  {
    if !MatchesIdFormat(atasId) then Invalid(BadFormat)
    else
      var code, year, userNumber := atasId[5..8], ParseDigits(atasId[9..13]), ParseDigits(atasId[14..]);
      if year < LaunchYear || year > currentYear + 1 then Invalid(YearOutOfRange(year))
      else if !IsTableCode(code) then Invalid(UnknownCountry(code))
      else if userNumber <= 0 then Invalid(NonPositiveNumber(userNumber))
      else
        ValidatedIdRenders(atasId);
        Valid(code, year, userNumber)
  }

  /** A well-formed identifier with a four-digit year of at least 1000 and a positive number re-renders to itself. */
  lemma ValidatedIdRenders(s: string)
    requires MatchesIdFormat(s)
    requires ParseDigits(s[9..13]) >= 1000 && ParseDigits(s[14..]) >= 1
    ensures ParseDigits(s[9..13]) <= 9999 && ParseDigits(s[14..]) <= 9999
    ensures RenderId(s[5..8], ParseDigits(s[9..13]), ParseDigits(s[14..])) == s
  {
    var year, n := ParseDigits(s[9..13]), ParseDigits(s[14..]);
    assert Pow10(3) == 1000 && Pow10(4) == 10000;
    DecimalLength(year, 4);
    DecimalLength(year, 3);
    ParseDecimal(year);
    ParseDigitsInjective(Decimal(year), s[9..13]);
    PadDecimal4(n);
    ParseDigitsInjective(PadStart(Decimal(n), 4, '0'), s[14..]);
    assert s == s[..5] + s[5..8] + "-" + s[9..13] + "-" + s[14..];
  }

  /** The checks run in a fixed order: each rejection is reported only when the earlier checks passed. */
  lemma ValidateChecksInOrder(s: string, currentYear: int)
    requires MatchesIdFormat(s)
    ensures var year := ParseDigits(s[9..13]);
            (year < LaunchYear || year > currentYear + 1) <==> ValidateId(s, currentYear) == Invalid(YearOutOfRange(year))
    ensures var year := ParseDigits(s[9..13]);
            LaunchYear <= year <= currentYear + 1 && !IsTableCode(s[5..8]) <==>
            ValidateId(s, currentYear) == Invalid(UnknownCountry(s[5..8]))
    ensures var year := ParseDigits(s[9..13]);
            LaunchYear <= year <= currentYear + 1 && IsTableCode(s[5..8]) && ParseDigits(s[14..]) == 0 <==>
            ValidateId(s, currentYear) == Invalid(NonPositiveNumber(0))
  {
  }

  /** Where the fields sit in a rendered identifier with a three-letter code and four-digit fields. */
  lemma RenderedIdSlices(code: string, ys: string, ns: string)
    requires |code| == 3 && |ys| == 4 && |ns| == 4
    ensures var s := "ATAS-" + code + "-" + ys + "-" + ns;
            |s| == 18 && s[..5] == "ATAS-" && s[5..8] == code && s[8] == '-' &&
            s[9..13] == ys && s[13] == '-' && s[14..] == ns
  {
  }

  /** Round trip: rendering a table code, a year in the window and a number in 1..9999 validates back to exactly those fields. */
  lemma ValidateRenderedId(code: string, year: nat, userNumber: nat, currentYear: int)
    requires IsTableCode(code)
    requires LaunchYear <= year <= currentYear + 1 && year <= 9999
    requires 1 <= userNumber <= 9999
    ensures ValidateId(RenderId(code, year, userNumber), currentYear) == Valid(code, year, userNumber)
  {
    TableCodesHaveShape();
    assert IsCodeShape(code);
    RenderedIdFields(code, year, userNumber);
  }

  /** A rendered identifier has the validator's format, and its fields parse back to the rendered values. */
  lemma RenderedIdFields(code: string, year: nat, userNumber: nat)
    requires IsCodeShape(code) && 1000 <= year <= 9999 && 1 <= userNumber <= 9999
    ensures var s := RenderId(code, year, userNumber);
            && MatchesIdFormat(s) && s[5..8] == code
            && ParseDigits(s[9..13]) == year && ParseDigits(s[14..]) == userNumber
  {
    var ys, ns := Decimal(year), PadStart(Decimal(userNumber), 4, '0');
    assert Pow10(3) == 1000 && Pow10(4) == 10000;
    DecimalLength(year, 4);
    DecimalLength(year, 3);
    ParseDecimal(year);
    PadDecimal4(userNumber);
    RenderedIdSlices(code, ys, ns);
    var s := RenderId(code, year, userNumber);
    assert s == "ATAS-" + code + "-" + ys + "-" + ns;
    assert MatchesIdFormat(s);
  }

  /** A user number that outgrows four digits renders an identifier the validator rejects as malformed. */
  lemma RenderedOverflowIsRejected(code: string, year: nat, userNumber: nat, currentYear: int)
    requires IsTableCode(code) && 1000 <= year <= 9999 && userNumber >= 10000
    ensures ValidateId(RenderId(code, year, userNumber), currentYear) == Invalid(BadFormat)
  {
    TableCodesHaveShape();
    var i :| 0 <= i < |CountryTable| && CountryTable[i].1 == code;
    assert Pow10(3) == 1000 && Pow10(4) == 10000;
    DecimalLength(year, 4);
    DecimalLength(year, 3);
    DecimalLength(userNumber, 4);
  }

  /** Distinct non-negative user numbers give distinct identifiers for the same code and year. */
  lemma RenderIdInjective(code: string, year: nat, m: nat, n: nat)
    requires RenderId(code, year, m) == RenderId(code, year, n)
    ensures m == n
  {
    var prefix := "ATAS-" + code + "-" + Decimal(year) + "-";
    assert RenderId(code, year, m) == prefix + PadStart(Decimal(m), 4, '0');
    assert RenderId(code, year, n) == prefix + PadStart(Decimal(n), 4, '0');
    CancelPrefix(prefix, PadStart(Decimal(m), 4, '0'), PadStart(Decimal(n), 4, '0'));
    PadDecimal4(m);
    PadDecimal4(n);
  }

  lemma ParseExampleFields()
    ensures ParseDigits("2025") == 2025 && ParseDigits("2019") == 2019 && ParseDigits("0001") == 1
  {
    assert "2025"[..3] == "202" && "202"[..2] == "20" && "20"[..1] == "2" && "2"[..0] == [];
    assert "2019"[..3] == "201" && "201"[..2] == "20";
    assert "0001"[..3] == "000" && "000"[..2] == "00" && "00"[..1] == "0" && "0"[..0] == [];
  }

  /** A well-formed identifier of this year for India is accepted. */
  lemma ValidateExampleAccepted()
    ensures ValidateId("ATAS-IND-2025-0001", 2025) == Valid("IND", 2025, 1)
  {
    ParseExampleFields();
    AcceptedExampleFields();
    assert CountryTable[0].1 == "IND";
  }

  lemma AcceptedExampleFields()
    ensures var s := "ATAS-IND-2025-0001";
            MatchesIdFormat(s) && s[5..8] == "IND" && s[9..13] == "2025" && s[14..] == "0001"
  {
    RenderedIdSlices("IND", "2025", "0001");
    assert "ATAS-" + "IND" == "ATAS-IND";
    assert "ATAS-IND" + "-" == "ATAS-IND-";
    assert "ATAS-IND-" + "2025" == "ATAS-IND-2025";
    assert "ATAS-IND-2025" + "-" == "ATAS-IND-2025-";
    assert "ATAS-IND-2025-" + "0001" == "ATAS-IND-2025-0001";
  }

  lemma UnknownCodeExample()
    ensures !IsTableCode("XXX")
  {
    assert forall i :: 0 <= i < |CountryTable| ==> CountryTable[i].1[0] != 'X';
  }

  /** An identifier with a code outside the table is rejected for its country. */
  lemma ValidateExampleUnknownCountry()
    ensures ValidateId("ATAS-XXX-2025-0001", 2025) == Invalid(UnknownCountry("XXX"))
  {
    ParseExampleFields();
    UnknownCodeExample();
    RenderedIdSlices("XXX", "2025", "0001");
    assert "ATAS-" + "XXX" == "ATAS-XXX";
    assert "ATAS-XXX" + "-" == "ATAS-XXX-";
    assert "ATAS-XXX-" + "2025" == "ATAS-XXX-2025";
    assert "ATAS-XXX-2025" + "-" == "ATAS-XXX-2025-";
    assert "ATAS-XXX-2025-" + "0001" == "ATAS-XXX-2025-0001";
  }

  /** An identifier from before the launch year is rejected for its year. */
  lemma ValidateExampleEarlyYear()
    ensures ValidateId("ATAS-IND-2019-0001", 2025) == Invalid(YearOutOfRange(2019))
  {
    ParseExampleFields();
    RenderedIdSlices("IND", "2019", "0001");
    assert "ATAS-" + "IND" == "ATAS-IND";
    assert "ATAS-IND" + "-" == "ATAS-IND-";
    assert "ATAS-IND-" + "2019" == "ATAS-IND-2019";
    assert "ATAS-IND-2019" + "-" == "ATAS-IND-2019-";
    assert "ATAS-IND-2019-" + "0001" == "ATAS-IND-2019-0001";
  }

  /** Free text is rejected as malformed. */
  lemma ValidateExampleMalformed()
    ensures ValidateId("not-an-id", 2025) == Invalid(BadFormat)
  {
  }

  // ---------------------------------------------------------------------------
  // Access codes.

  /** `Buffer.readUIntBE(0, 3)`: the first three bytes as a big-endian number. */
  function ReadUIntBE3(bytes: seq<bv8>): (v: nat)
    requires |bytes| >= 3
    ensures v < 0x100_0000
  {
    (bytes[0] as nat) * 0x1_0000 + (bytes[1] as nat) * 0x100 + bytes[2] as nat
  }

  /**
   * The access code's value: three random bytes reduced into [100000, 999999];
   * when the random source fails or yields fewer than three bytes, the clock
   * reading in milliseconds reduced the same way.
   */
  function AccessCodeValue(randomBytes: Option<seq<bv8>>, nowMillis: nat): (v: nat)
    ensures 100000 <= v <= 999999
  {
    if randomBytes.Some? && |randomBytes.value| >= 3 then ReadUIntBE3(randomBytes.value) % 900000 + 100000
    else nowMillis % 900000 + 100000
  }

  /** generateAccessCode: always exactly six decimal digits, the first non-zero. */
  function AccessCode(randomBytes: Option<seq<bv8>>, nowMillis: nat): (code: string)
    ensures |code| == 6 && AllDigits(code) && code[0] != '0'
    ensures ParseDigits(code) == AccessCodeValue(randomBytes, nowMillis)
  {
    var v := AccessCodeValue(randomBytes, nowMillis);
    assert Pow10(5) == 100000 && Pow10(6) == 1000000;
    DecimalLength(v, 6);
    DecimalLength(v, 5);
    ParseDecimal(v);
    Decimal(v)
  }

  // ---------------------------------------------------------------------------
  // The allocator.

  /** One allocation as the service stores it (its creation date is not modelled). */
  datatype IdRecord = IdRecord(
    id: string,
    accessCode: string,
    countryCode: string,
    year: nat,
    userNumber: int,
    email: string,
    phoneNumber: string)

  /** The first record of `rs` with identifier `id`: `Array.prototype.find`. */
  function FindById(rs: seq<IdRecord>, id: string): (r: Option<IdRecord>)
    ensures r.None? <==> forall i :: 0 <= i < |rs| ==> rs[i].id != id
    ensures r.Some? ==> exists i :: 0 <= i < |rs| && rs[i] == r.value && r.value.id == id &&
                                    forall j :: 0 <= j < i ==> rs[j].id != id
  {
    if rs == [] then None
    else if rs[0].id == id then Some(rs[0])
    else
      var r := FindById(rs[1..], id);
      assert forall i :: 1 <= i < |rs| ==> rs[i] == rs[1..][i - 1];
      r
  }

  /**
   * The record generateATASID stores for a user number: the identifier
   * rendered from the country code, the year and the number, and a fresh
   * access code.
   */
  function NewRecord(email: string, phoneNumber: string, code: string, year: nat, userNumber: int,
                     randomBytes: Option<seq<bv8>>, nowMillis: nat): IdRecord
  {
    IdRecord(RenderId(code, year, userNumber), AccessCode(randomBytes, nowMillis), code, year, userNumber, email, phoneNumber)
  }

  class IdAllocator {
    /** The in-memory counter: the last user number handed out. */
    var userCounter: int
    /** The counter as last written to local storage (ATAS_USER_COUNTER). */
    var savedCounter: Option<int>
    /** The allocation records in local storage (ATAS_USER_ID_DATA), oldest first. */
    var records: seq<IdRecord>

    /**
     * The service with initializeCounter applied: a stored counter is taken
     * as it is; without one the backend's value, fixed at 1 in the source, is used.
     */
    constructor(storedCounter: Option<int>, storedRecords: seq<IdRecord>)
      ensures userCounter == storedCounter.GetOr(1)
      ensures savedCounter == storedCounter && records == storedRecords
    {
      userCounter := storedCounter.GetOr(1);
      savedCounter := storedCounter;
      records := storedRecords;
    }

    /**
     * incrementCounter: the counter goes up by one before it is written out,
     * so a failed write still leaves it incremented.
     */
    method IncrementCounter(saveOk: bool) returns (r: Outcome<string>)
      modifies this`userCounter, this`savedCounter
      ensures userCounter == old(userCounter) + 1
      ensures savedCounter == if saveOk then Some(userCounter) else old(savedCounter)
      ensures r == if saveOk then Pass else Fail("Failed to update user counter")
    {
      userCounter := userCounter + 1;
      if saveOk {
        savedCounter := Some(userCounter);
        r := Pass;
      } else {
        r := Fail("Failed to update user counter");
      }
    }

    /** storeATASIDData: appends the record; a failed write is logged and dropped. */
    method StoreRecord(rec: IdRecord, saveOk: bool)
      modifies this`records
      ensures records == if saveOk then old(records) + [rec] else old(records)
      ensures saveOk ==> !IsAvailable(rec.id)
    {
      if saveOk {
        records := records + [rec];
        assert records[|records| - 1] == rec;
      }
    }

    /**
     * generateATASID: looks up the country's code, then allocates the next
     * identifier under it.
     */
    method GenerateId(email: string, phoneNumber: string, countryName: string, currentYear: nat,
                      randomBytes: Option<seq<bv8>>, nowMillis: nat, counterSaved: bool, recordSaved: bool)
      returns (r: Result<IdRecord, string>)
      modifies this`userCounter, this`savedCounter, this`records
      ensures userCounter == old(userCounter) + 1
      ensures savedCounter == if counterSaved then Some(userCounter) else old(savedCounter)
      ensures !counterSaved ==> r == Failure("Failed to generate ATAS ID")
      ensures counterSaved ==> r.Success?
      ensures r.Success? ==>
                r.value == NewRecord(email, phoneNumber, CountryCode(countryName), currentYear, userCounter, randomBytes, nowMillis)
      ensures records == if r.Success? && recordSaved then old(records) + [r.value] else old(records)
      ensures r.Success? && recordSaved ==> !IsAvailable(r.value.id)
    {
      r := Allocate(email, phoneNumber, CountryCode(countryName), currentYear, randomBytes, nowMillis, counterSaved, recordSaved);
    }

    /**
     * The rest of generateATASID once the country code is known: bumps the
     * counter, renders the identifier from the new counter value, issues an
     * access code and stores the record. A failed counter write fails the
     * whole call after the counter has moved.
     */
    method Allocate(email: string, phoneNumber: string, code: string, currentYear: nat,
                    randomBytes: Option<seq<bv8>>, nowMillis: nat, counterSaved: bool, recordSaved: bool)
      returns (r: Result<IdRecord, string>)
      modifies this`userCounter, this`savedCounter, this`records
      ensures userCounter == old(userCounter) + 1
      ensures savedCounter == if counterSaved then Some(userCounter) else old(savedCounter)
      ensures !counterSaved ==> r == Failure("Failed to generate ATAS ID")
      ensures counterSaved ==> r.Success?
      ensures r.Success? ==> r.value == NewRecord(email, phoneNumber, code, currentYear, userCounter, randomBytes, nowMillis)
      ensures records == if r.Success? && recordSaved then old(records) + [r.value] else old(records)
      ensures r.Success? && recordSaved ==> !IsAvailable(r.value.id)
    {
      var bumped := IncrementCounter(counterSaved);
      if bumped.Fail? {
        return Failure("Failed to generate ATAS ID");
      }
      var rec := NewRecord(email, phoneNumber, code, currentYear, userCounter, randomBytes, nowMillis);
      StoreRecord(rec, recordSaved);
      r := Success(rec);
    }

    /** getATASIDData: the first stored record with this identifier, if any. */
    function GetData(atasId: string): (r: Option<IdRecord>)
      reads this
      ensures r.None? <==> forall i :: 0 <= i < |records| ==> records[i].id != atasId
      ensures r.Some? ==> exists i :: 0 <= i < |records| && records[i] == r.value && r.value.id == atasId &&
                                      forall j :: 0 <= j < i ==> records[j].id != atasId
    {
      FindById(records, atasId)
    }

    /** isATASIDAvailable: no stored record carries this identifier. */
    function IsAvailable(atasId: string): (b: bool)
      reads this
      ensures b <==> forall i :: 0 <= i < |records| ==> records[i].id != atasId
    {
      GetData(atasId).None?
    }
  }

  /** Two allocations in a row with the same country and year hand out different identifiers, and both are then taken. */
  method ConsecutiveIdsDiffer(a: IdAllocator, email: string, phoneNumber: string, code: string,
                              currentYear: nat, nowMillis: nat)
    returns (first: IdRecord, second: IdRecord)
    requires a.userCounter >= 0
    modifies a
    ensures first.id != second.id
    ensures second.userNumber == first.userNumber + 1 == a.userCounter
    ensures !a.IsAvailable(first.id) && !a.IsAvailable(second.id)
  {
    var r1 := a.Allocate(email, phoneNumber, code, currentYear, None, nowMillis, true, true);
    first := r1.value;
    var r2 := a.Allocate(email, phoneNumber, code, currentYear, None, nowMillis, true, true);
    second := r2.value;
    assert a.records == old(a.records) + [first] + [second];
    if first.id == second.id {
      RenderIdInjective(first.countryCode, currentYear, first.userNumber, second.userNumber);
    }
  }
}
