/**
 * GST e-way-bill helpers and the e-way-bill request validators.
 * Amounts are integer rupees; strings are ASCII.
 */
module EwayBill {
  import opened Common

  /** Invoices of 50000 or more need an e-way bill. */
  const EligibilityThreshold: int := 50000

  function RequiresEwayBill(invoiceAmount: int): (required: bool)
    ensures required <==> invoiceAmount >= EligibilityThreshold
  {
    invoiceAmount >= 50000
  }

  /** The validity rule returns the number of days and a human-readable description. */
  datatype Validity = Validity(days: int, description: string)

  function CalculateValidity(distance: int): (v: Validity)
    ensures distance < 100 ==> v.days == 1
    ensures 100 <= distance < 300 ==> v.days == 3
    ensures 300 <= distance < 1000 ==> (v.days - 1) * 100 < distance <= v.days * 100
    ensures distance >= 1000 ==> v.days == 15
  {
    if distance < 100 then Validity(1, "1 day (< 100 km)")
    else if distance < 300 then Validity(3, "3 days (100-300 km)")
    else if distance < 1000 then
      var days := (distance + 99) / 100;
      Validity(days, IntToString(days) + " days (" + IntToString(distance) + " km)")
    else Validity(15, "15 days (> 1000 km)")
  }

  /** Validity always lies between 1 and 15 days. */
  lemma ValidityBounds(distance: int)
    ensures 1 <= CalculateValidity(distance).days <= 15
  {
  }

  /** A longer journey never gets a shorter validity. */
  lemma ValidityMonotone(d1: int, d2: int)
    requires d1 <= d2
    ensures CalculateValidity(d1).days <= CalculateValidity(d2).days
  {
  }

  /** `filter(str.isdigit, hsn)`: the digits of `s`, in order, every other character dropped. */
  function KeepDigits(s: string): (r: string)
    ensures AllDigits(r) && |r| <= |s|
    ensures forall c :: c in r <==> c in s && IsDigit(c)
  {
    if s == [] then "" else (if IsDigit(s[0]) then [s[0]] else "") + KeepDigits(s[1..])
  }

  /** One character is kept exactly when it is a digit. */
  lemma KeepDigitsSingle(c: char)
    ensures KeepDigits([c]) == if IsDigit(c) then [c] else []
  {
    assert [c][1..] == [];
  }

  /** Filtering a concatenation filters each part: with KeepDigitsSingle this fixes the order of the kept digits. */
  lemma {:induction false} KeepDigitsAppend(a: string, b: string)
    ensures KeepDigits(a + b) == KeepDigits(a) + KeepDigits(b)
  {
    if a == [] {
      assert a + b == b;
    } else {
      assert (a + b)[0] == a[0] && (a + b)[1..] == a[1..] + b;
      KeepDigitsAppend(a[1..], b);
    }
  }

  lemma {:induction false} KeepDigitsOfDigits(s: string)
    requires AllDigits(s)
    ensures KeepDigits(s) == s
  {
    if s != [] { KeepDigitsOfDigits(s[1..]); }
  }

  /**
   * HSN codes: nothing for a missing or empty code; otherwise the digits of
   * the input, left-padded with zeros to at least four characters.
   */
  function FormatHsnCode(hsn: Option<string>): (r: string)
    ensures hsn == None || hsn == Some("") ==> r == ""
    ensures hsn.Some? && hsn.value != "" ==>
      var d := KeepDigits(hsn.value);
      AllDigits(r) && |r| == (if |d| >= 4 then |d| else 4) && r[|r| - |d|..] == d
      && forall i :: 0 <= i < |r| - |d| ==> r[i] == '0'
  {
    if hsn == None || hsn.value == "" then ""
    else PadLeft(KeepDigits(hsn.value), 4, '0')
  }

  /** Formatting an already formatted code changes nothing. */
  lemma FormatHsnIdempotent(hsn: Option<string>)
    requires FormatHsnCode(hsn) != ""
    ensures FormatHsnCode(Some(FormatHsnCode(hsn))) == FormatHsnCode(hsn)
  {
    var r := FormatHsnCode(hsn);
    KeepDigitsOfDigits(r);
  }

  const StateCodes: map<string, string> := map[
    "01" := "Jammu and Kashmir", "02" := "Himachal Pradesh", "03" := "Punjab",
    "04" := "Chandigarh", "05" := "Uttarakhand", "06" := "Haryana",
    "07" := "Delhi", "08" := "Rajasthan", "09" := "Uttar Pradesh",
    "10" := "Bihar", "11" := "Sikkim", "12" := "Arunachal Pradesh",
    "13" := "Nagaland", "14" := "Manipur", "15" := "Mizoram",
    "16" := "Tripura", "17" := "Meghalaya", "18" := "Assam",
    "19" := "West Bengal", "20" := "Jharkhand", "21" := "Odisha",
    "22" := "Chhattisgarh", "23" := "Madhya Pradesh", "24" := "Gujarat",
    "25" := "Daman and Diu", "26" := "Dadra and Nagar Haveli", "27" := "Maharashtra",
    "28" := "Andhra Pradesh (Old)", "29" := "Karnataka", "30" := "Goa",
    "31" := "Lakshadweep", "32" := "Kerala", "33" := "Tamil Nadu",
    "34" := "Puducherry", "35" := "Andaman and Nicobar Islands", "36" := "Telangana",
    "37" := "Andhra Pradesh (New)", "38" := "Ladakh"
  ]

  /** A two-digit code from 01 to 38: exactly the keys of the state table. */
  predicate IsNumberedState(code: string)
  {
    |code| == 2 && AllDigits(code) && 1 <= DigitsValue(code) <= 38
  }

  lemma StateCodeShape(code: string)
    ensures code in StateCodes <==> IsNumberedState(code)
  {
    if IsNumberedState(code) {
      var n := DigitsValue(code);
      var d0, d1 := code[0] as int - '0' as int, code[1] as int - '0' as int;
      assert code[..1][..0] == [];
      assert DigitsValue(code[..1]) == d0;
      assert n == 10 * d0 + d1;
      assert code == NatToString2(n);
      NumberedKey(n);
    }
    if code in StateCodes {
      assert code[..1][..0] == [];
    }
  }

  lemma NumberedKey(n: nat)
    requires 1 <= n <= 38
    ensures NatToString2(n) in StateCodes
  {
  }

  /** Two-digit rendering used only to name the table's keys in the proof above. */
  function NatToString2(n: nat): string
    requires n < 100
  {
    [('0' as int + n / 10) as char, ('0' as int + n % 10) as char]
  }

  function GetStateName(code: string): (name: string)
    ensures code !in StateCodes ==> name == ""
    ensures code in StateCodes ==> name == StateCodes[code] && name != ""
  {
    if code in StateCodes then StateCodes[code] else ""
  }

  /** GSTIN check: 15 characters whose first two are a known state code; nothing else is checked. */
  function ValidateGstin(gstin: Option<string>): (ok: bool)
  {
    gstin.Some? && |gstin.value| == 15
    && IsDigit(gstin.value[0]) && IsDigit(gstin.value[1])
    && gstin.value[..2] in StateCodes
  }

  lemma ValidateGstinMeaning(gstin: Option<string>)
    ensures ValidateGstin(gstin) <==>
      gstin.Some? && |gstin.value| == 15 && IsNumberedState(gstin.value[..2])
  {
    if gstin.Some? && |gstin.value| == 15 {
      StateCodeShape(gstin.value[..2]);
    }
  }

  // ---------------------------------------------------------------------
  // Request validation for e-way-bill details.
  // ---------------------------------------------------------------------

  datatype EwayBillRequest = EwayBillRequest(
    transportMode: string,
    vehicleNumber: string,
    transportDistance: int,
    transporterId: Option<string>,
    vehicleType: Option<string>,
    transporterDocNo: Option<string>)

  predicate IsTransportMode(m: string) { m in ["Road", "Rail", "Air", "Ship"] }

  /** An absent or empty vehicle type passes; otherwise it must be Regular or ODC. */
  predicate IsAcceptableVehicleType(v: Option<string>)
  {
    v == None || v.value == "" || v.value in ["Regular", "ODC"]
  }

  function NormaliseVehicleNumber(v: string): (r: string)
    ensures |r| <= |v|
    ensures forall i :: 0 <= i < |r| ==> !IsLowerLetter(r[i])
    ensures r != [] ==> !IsSpace(r[0]) && !IsSpace(r[|r| - 1])
  {
    Upper(Trim(v))
  }

  lemma {:induction false} UpperIdempotent(s: string)
    ensures Upper(Upper(s)) == Upper(s)
  {
    if s != [] { UpperIdempotent(s[1..]); }
  }

  /** Normalising a normalised vehicle number changes nothing. */
  lemma NormaliseIdempotent(v: string)
    ensures NormaliseVehicleNumber(NormaliseVehicleNumber(v)) == NormaliseVehicleNumber(v)
  {
    var r := NormaliseVehicleNumber(v);
    TrimOfTrimmed(r);
    UpperIdempotent(Trim(v));
  }

  /**
   * The whole request: the field bounds are checked on the raw values, then
   * the vehicle number is normalised. Any failure is a 422.
   */
  function ValidateRequest(req: EwayBillRequest): (r: Result<EwayBillRequest>)
    ensures r.Ok? <==>
      IsTransportMode(req.transportMode)
      && 1 <= |req.vehicleNumber| <= 20
      && req.transportDistance > 0
      && (req.transporterId == None || |req.transporterId.value| <= 15)
      && IsAcceptableVehicleType(req.vehicleType)
      && (req.transporterDocNo == None || |req.transporterDocNo.value| <= 50)
    ensures r.Ok? ==> r.value == req.(vehicleNumber := NormaliseVehicleNumber(req.vehicleNumber))
    ensures r.Err? ==> r.status == 422
  {
    if !IsTransportMode(req.transportMode) then Err(422, "Transport mode must be one of: Road, Rail, Air, Ship")
    else if !(1 <= |req.vehicleNumber| <= 20) then Err(422, "vehicle_number length")
    else if req.transportDistance <= 0 then Err(422, "transport_distance must be greater than 0")
    else if req.transporterId.Some? && |req.transporterId.value| > 15 then Err(422, "transporter_id length")
    else if !IsAcceptableVehicleType(req.vehicleType) then Err(422, "Vehicle type must be either Regular or ODC")
    else if req.transporterDocNo.Some? && |req.transporterDocNo.value| > 50 then Err(422, "transporter_doc_no length")
    else Ok(req.(vehicleNumber := NormaliseVehicleNumber(req.vehicleNumber)))
  }

  /** A blank vehicle number of spaces passes the length bound and normalises to "". */
  lemma BlankVehicleNumberAccepted()
    ensures ValidateRequest(EwayBillRequest("Road", "  ", 10, None, None, None)) == Ok(EwayBillRequest("Road", "", 10, None, None, None))
  {
    assert Trim("  ") == "";
  }
}
