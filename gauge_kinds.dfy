/** The two enumerations a gauge definition is made of, DataType and Option,
    and their text forms. The mobile client and the service declare them
    identically (each in its own Gauge class); the service only tests the
    option text with isBlank where the client tests null-or-empty. */
module GaugeKinds {
  import opened Lang

  // ---------------------------------------------------------------- DataType

  datatype DataType = STRING | INTEGER | DOUBLE {
    /** toDataTypeString: the constant's name. */
    function Name(): string {
      match this
      case STRING => "STRING"
      case INTEGER => "INTEGER"
      case DOUBLE => "DOUBLE"
    }

    predicate IsNumeric() {
      this == INTEGER || this == DOUBLE
    }
  }

  /** DataType.DEFAULT_DATATYPE */
  const DefaultDataType: DataType := DOUBLE

  /** DataType.values(), in declaration order. */
  const AllDataTypes: seq<DataType> := [STRING, INTEGER, DOUBLE]

  /** Reference definition of fromDataTypeString: the data type whose name
      equals the text when case is ignored, or null. */
  function DataTypeNamed(s: Option<string>): (r: Option<DataType>)
    ensures r.Some? ==> s.Some? && EqualsIgnoreCase(r.value.Name(), s.value)
    ensures r.None? && s.Some? ==> forall t: DataType :: !EqualsIgnoreCase(t.Name(), s.value)
  {
    if s.None? then None
    else if EqualsIgnoreCase(STRING.Name(), s.value) then Some(STRING)
    else if EqualsIgnoreCase(INTEGER.Name(), s.value) then Some(INTEGER)
    else if EqualsIgnoreCase(DOUBLE.Name(), s.value) then Some(DOUBLE)
    else None
  }

  lemma NamesDiffer(a: DataType, b: DataType)
    requires a != b
    ensures !EqualsIgnoreCase(a.Name(), b.Name())
  {
    if |a.Name()| == |b.Name()| {
      assert ToUpperAscii(a.Name()[0]) != ToUpperAscii(b.Name()[0]);
    }
  }

  /** Every data type is recovered from its own name, and only from it. */
  lemma DataTypeNameRoundTrip(t: DataType)
    ensures DataTypeNamed(Some(t.Name())) == Some(t)
  {
    forall u: DataType | u != t ensures !EqualsIgnoreCase(u.Name(), t.Name()) {
      NamesDiffer(u, t);
    }
    assert EqualsIgnoreCase(t.Name(), t.Name());
  }

  /** fromDataTypeString, as the loop over DataType.values() it is. */
  method FromDataTypeString(s: Option<string>) returns (r: Option<DataType>)
    ensures r == DataTypeNamed(s)
  {
    if s.Some? {
      var i := 0;
      while i < |AllDataTypes|
        invariant 0 <= i <= |AllDataTypes|
        invariant forall j :: 0 <= j < i ==> !EqualsIgnoreCase(AllDataTypes[j].Name(), s.value)
      {
        var t := AllDataTypes[i];
        if EqualsIgnoreCase(t.Name(), s.value) {
          return Some(t);
        }
        i := i + 1;
      }
      assert AllDataTypes[0] == STRING && AllDataTypes[1] == INTEGER && AllDataTypes[2] == DOUBLE;
    }
    return None;
  }

  // ------------------------------------------------------------------ Option

  datatype GaugeOption = REQUIRED | OPTIONAL {
    /** toOptionString: "M" (mandatory) for REQUIRED, "O" for OPTIONAL. */
    function Code(): char {
      match this
      case OPTIONAL => 'O'
      case REQUIRED => 'M'
    }
  }

  /** Option.values(), in declaration (EnumSet iteration) order. */
  const AllOptions: seq<GaugeOption> := [REQUIRED, OPTIONAL]

  lemma AllOptionsListed(o: GaugeOption)
    ensures o in AllOptions
  {
    if o == REQUIRED { assert AllOptions[0] == o; } else { assert AllOptions[1] == o; }
  }

  /** Reference definition of fromOptionString: the options whose code occurs in
      the text; null for null or empty text and when no code occurs. */
  function OptionsOf(s: Option<string>): (r: Option<set<GaugeOption>>)
    ensures IsNullOrEmpty(s) ==> r.None?
    ensures r.Some? ==> s.Some? && r.value != {} &&
                        forall o: GaugeOption :: o in r.value <==> ContainsChar(s.value, o.Code())
    ensures r.None? && s.Some? ==> forall o: GaugeOption :: !ContainsChar(s.value, o.Code())
  {
    if IsNullOrEmpty(s) then None
    else
      var found := set o | o in AllOptions && ContainsChar(s.value, o.Code());
      forall o: GaugeOption ensures o in AllOptions { AllOptionsListed(o); }
      assert forall o: GaugeOption :: ContainsChar(s.value, o.Code()) ==> o in found;
      if found == {} then None else Some(found)
  }

  /** The codes of the options in `order` that belong to `opts`. */
  function CodesInOrder(opts: set<GaugeOption>, order: seq<GaugeOption>): (r: string)
    ensures forall c :: c in r <==> exists o :: o in order && o in opts && o.Code() == c
  {
    if order == [] then ""
    else (if order[0] in opts then [order[0].Code()] else "") + CodesInOrder(opts, order[1..])
  }

  /** Reference definition of toOptionString(EnumSet): the codes in
      declaration order, or null for a null or empty set. */
  function OptionString(opts: Option<set<GaugeOption>>): (r: Option<string>)
    ensures r.None? <==> opts.None? || opts.value == {}
    ensures r.Some? ==> forall o: GaugeOption :: ContainsChar(r.value, o.Code()) <==> o in opts.value
  {
    if opts.None? || opts.value == {} then None
    else
      var r := CodesInOrder(opts.value, AllOptions);
      forall o: GaugeOption ensures o in AllOptions { AllOptionsListed(o); }
      assert forall o: GaugeOption :: ContainsChar(r, o.Code()) <==> o.Code() in r;
      assert forall o: GaugeOption :: o.Code() in r <==> o in opts.value;
      Some(r)
  }

  /** Serialising a non-empty option set and reading it back gives the same set;
      null stays null. */
  lemma OptionsRoundTrip(opts: Option<set<GaugeOption>>)
    requires opts.None? || opts.value != {}
    ensures OptionsOf(OptionString(opts)) == opts
  {
    if opts.Some? {
      var s := OptionString(opts);
      assert s.value != "" by {
        var o :| o in opts.value;
        assert ContainsChar(s.value, o.Code());
      }
      var back := OptionsOf(s);
      assert back.Some? by {
        var o :| o in opts.value;
        assert ContainsChar(s.value, o.Code());
      }
      assert back.value == opts.value;
    }
  }

  /** Rewriting a stored option string through the option set is idempotent:
      the second pass yields the same options as the first. */
  lemma OptionStringCanonical(s: Option<string>)
    ensures OptionsOf(OptionString(OptionsOf(s))) == OptionsOf(s)
  {
    OptionsRoundTrip(OptionsOf(s));
  }

  /** fromOptionString, as the loop over Option.values() it is. */
  method FromOptionString(s: Option<string>) returns (r: Option<set<GaugeOption>>)
    ensures r == OptionsOf(s)
  {
    if s.None? || s.value == "" {
      return None;
    }
    var options: set<GaugeOption> := {};
    var i := 0;
    while i < |AllOptions|
      invariant 0 <= i <= |AllOptions|
      invariant options == set o | o in AllOptions[..i] && ContainsChar(s.value, o.Code())
    {
      var o := AllOptions[i];
      if ContainsChar(s.value, o.Code()) {
        options := options + {o};
      }
      assert AllOptions[..i + 1] == AllOptions[..i] + [o];
      i := i + 1;
    }
    assert AllOptions[..i] == AllOptions;
    if options == {} {
      return None;
    }
    return Some(options);
  }

  /** toOptionString(EnumSet), appending the codes while iterating the set in
      declaration order. */
  method ToOptionString(opts: Option<set<GaugeOption>>) returns (r: Option<string>)
    ensures r == OptionString(opts)
  {
    if opts.None? || opts.value == {} {
      return None;
    }
    var s := "";
    var i := 0;
    assert AllOptions[0..] == AllOptions;
    while i < |AllOptions|
      invariant 0 <= i <= |AllOptions|
      invariant s + CodesInOrder(opts.value, AllOptions[i..]) == CodesInOrder(opts.value, AllOptions)
    {
      var o := AllOptions[i];
      assert AllOptions[i..][1..] == AllOptions[i + 1..];
      if o in opts.value {
        s := s + [o.Code()];
      }
      i := i + 1;
    }
    assert AllOptions[i..] == [];
    assert CodesInOrder(opts.value, AllOptions[i..]) == "";
    assert s == CodesInOrder(opts.value, AllOptions);
    return Some(s);
  }
  // The service's fromOptionString starts with isBlank instead of null-or-empty.

  /** The service's fromOptionString: null for blank text (null, empty or
      whitespace only), otherwise as on the client. */
  function ServiceOptionsOf(s: Option<string>): (r: Option<set<GaugeOption>>)
    ensures IsBlank(s) ==> r.None?
    ensures !IsBlank(s) ==> r == OptionsOf(s)
  {
    if IsBlank(s) then None else OptionsOf(s)
  }

  /** Neither option code is whitespace, so the stricter blank test changes no
      answer: both sides decode every option text alike. */
  lemma ServiceOptionsAgree(s: Option<string>)
    ensures ServiceOptionsOf(s) == OptionsOf(s)
  {
  }

  /** The service's fromOptionString, as the loop over Option.values() it is. */
  method ServiceFromOptionString(s: Option<string>) returns (r: Option<set<GaugeOption>>)
    ensures r == ServiceOptionsOf(s)
  {
    if s.None? {
      return None;
    }
    var i := 0;
    while i < |s.value|
      invariant 0 <= i <= |s.value|
      invariant forall j :: 0 <= j < i ==> IsWhitespace(s.value[j])
    {
      if !IsWhitespace(s.value[i]) {
        r := FromOptionString(s);
        return;
      }
      i := i + 1;
    }
    return None;
  }
}
