/**
 * DockerImage: one image profile of a Docker cloud, with its instance-cap
 * parsing, its bean setters and the form validators of its descriptor.
 */
module Image {
  import opened JavaLang

  /** hudson.model.Node.Mode */
  datatype Mode = Normal | Exclusive

  /** hudson.util.FormValidation, reduced to its kind and message. */
  datatype FormValidation = Ok | Error(message: string)

  /**
   * The instance cap the constructor derives from its string: null or ""
   * means Integer.MAX_VALUE, anything else goes through Integer.parseInt,
   * whose failure (None) is a NumberFormatException.
   */
  function ParseInstanceCap(instanceCapStr: JString): (cap: Option<int>)
    ensures instanceCapStr == None || instanceCapStr == Some("") ==> cap == Some(IntMax)
    ensures instanceCapStr.Some? && instanceCapStr.value != "" ==> cap == ParseInt(instanceCapStr.value)
  {
    if instanceCapStr.None? || instanceCapStr.value == "" then Some(IntMax)
    else ParseInt(instanceCapStr.value)
  }

  /** A digit string that fits in an int is read as its decimal value. */
  lemma ParseInstanceCapDigits(s: string)
    requires IsDigits(s) && DigitsValue(s) <= IntMax
    ensures ParseInstanceCap(Some(s)) == Some(DigitsValue(s))
  {
    ParseIntDigits(s);
  }

  /** The constructor accepts caps the form validator would refuse: blank, zero and negative ones. */
  lemma ConstructorAcceptsWhatValidatorRefuses()
    ensures ParseInstanceCap(Some("")) == Some(IntMax) && DoCheckInstanceCapStr(Some("")) == Returned(Error("Required"))
    ensures ParseInstanceCap(Some("-1")) == Some(-1) && DoCheckInstanceCapStr(Some("-1")) == Returned(Error("Must be a number"))
    ensures ParseInstanceCap(Some("0")) == Some(0) && DoCheckInstanceCapStr(Some("0")) == Returned(Error("Must be at least one."))
  {
    assert DigitsValue("1") == 1 by { assert "1"[..0] == ""; }
    ParseIntNegative("1");
    assert "-" + "1" == "-1";
    assert DigitsValue("0") == 0 by { assert "0"[..0] == ""; }
    ParseIntDigits("0");
    assert !IsDigits("-1") by { assert !IsDigit("-1"[0]); }
  }

  class DockerImage {
    var name: JString
    var labelString: JString
    var mode: Mode
    var instanceCap: int
    var dockerImageName: JString
    var remoteFS: JString

    /** The data-bound constructor, once its cap string has been parsed. */
    constructor (name: JString, labelString: JString, mode: Mode, instanceCapStr: JString,
                 dockerImageName: JString, remoteFS: JString)
      requires ParseInstanceCap(instanceCapStr).Some?
      ensures this.name == name && this.labelString == labelString && this.mode == mode
      ensures this.dockerImageName == dockerImageName && this.remoteFS == remoteFS
      ensures instanceCap == ParseInstanceCap(instanceCapStr).value
    {
      this.name := name;
      this.labelString := labelString;
      this.mode := mode;
      this.dockerImageName := dockerImageName;
      this.remoteFS := remoteFS;
      instanceCap := ParseInstanceCap(instanceCapStr).value;
    }

    /**
     * `new DockerImage(...)`: stores the five fields unchanged and derives the
     * cap, or throws NumberFormatException when the cap string does not parse.
     */
    static method Create(name: JString, labelString: JString, mode: Mode, instanceCapStr: JString,
                         dockerImageName: JString, remoteFS: JString) returns (r: Outcome<DockerImage>)
      ensures r.Threw? <==> ParseInstanceCap(instanceCapStr).None?
      ensures r.Threw? ==> r.exception == NumberFormatException
      ensures r.Returned? ==> fresh(r.value)
      ensures r.Returned? ==> r.value.name == name && r.value.labelString == labelString && r.value.mode == mode
      ensures r.Returned? ==> r.value.dockerImageName == dockerImageName && r.value.remoteFS == remoteFS
      ensures r.Returned? ==> r.value.instanceCap == ParseInstanceCap(instanceCapStr).value
    {
      if ParseInstanceCap(instanceCapStr).None? {
        return Threw(NumberFormatException);
      }
      var image := new DockerImage(name, labelString, mode, instanceCapStr, dockerImageName, remoteFS);
      r := Returned(image);
    }

    method SetName(name: JString)
      modifies this`name
      ensures this.name == name
    {
      this.name := name;
    }

    method SetLabelString(labelString: JString)
      modifies this`labelString
      ensures this.labelString == labelString
    {
      this.labelString := labelString;
    }

    method SetMode(mode: Mode)
      modifies this`mode
      ensures this.mode == mode
    {
      this.mode := mode;
    }

    method SetInstanceCap(instanceCap: int)
      modifies this`instanceCap
      ensures this.instanceCap == instanceCap
    {
      this.instanceCap := instanceCap;
    }

    method SetDockerImageName(dockerImageName: JString)
      modifies this`dockerImageName
      ensures this.dockerImageName == dockerImageName
    {
      this.dockerImageName := dockerImageName;
    }

    method SetRemoteFS(remoteFS: JString)
      modifies this`remoteFS
      ensures this.remoteFS == remoteFS
    {
      this.remoteFS := remoteFS;
    }

    /** Deserialisation hook: the object itself, unchanged. */
    method ReadResolve() returns (r: DockerImage)
      ensures r == this
    {
      r := this;
    }
  }

  /** The shape shared by the required-text validators. */
  function CheckRequired(value: JString): (r: FormValidation)
    ensures r.Error? <==> IsNullOrEmpty(value)
    ensures r.Error? ==> r.message == "Required"
  {
    if value.None? || |value.value| < 1 then Error("Required") else Ok
  }

  function DoCheckName(name: JString): (r: FormValidation)
    ensures r.Error? <==> name.None? || name.value == ""
    ensures r.Error? ==> r.message == "Required"
  {
    CheckRequired(name)
  }

  function DoCheckDockerImageName(dockerImageName: JString): (r: FormValidation)
    ensures r.Error? <==> dockerImageName.None? || dockerImageName.value == ""
    ensures r.Error? ==> r.message == "Required"
  {
    CheckRequired(dockerImageName)
  }

  function DoCheckRemoteFS(remoteFS: JString): (r: FormValidation)
    ensures r.Error? <==> remoteFS.None? || remoteFS.value == ""
    ensures r.Error? ==> r.message == "Required"
  {
    CheckRequired(remoteFS)
  }

  /**
   * Blank is "Required", anything but ASCII digits is "Must be a number", a
   * value below one is "Must be at least one."; a digit string too large for
   * an int makes Integer.parseInt throw.
   */
  function DoCheckInstanceCapStr(instanceCapStr: JString): (r: Outcome<FormValidation>)
    ensures r == Returned(Error("Required")) <==> IsNullOrEmpty(instanceCapStr)
    ensures r == Returned(Error("Must be a number")) <==> !IsNullOrEmpty(instanceCapStr) && !IsDigits(instanceCapStr.value)
    ensures r == Returned(Error("Must be at least one.")) <==>
      instanceCapStr.Some? && IsDigits(instanceCapStr.value) && DigitsValue(instanceCapStr.value) == 0
    ensures r == Threw(NumberFormatException) <==>
      instanceCapStr.Some? && IsDigits(instanceCapStr.value) && DigitsValue(instanceCapStr.value) > IntMax
    ensures r == Returned(Ok) <==>
      instanceCapStr.Some? && IsDigits(instanceCapStr.value) && 1 <= DigitsValue(instanceCapStr.value) <= IntMax
  {
    if instanceCapStr.None? || |instanceCapStr.value| < 1 then Returned(Error("Required"))
    else if !IsDigits(instanceCapStr.value) then Returned(Error("Must be a number"))
    else
      ParseIntDigits(instanceCapStr.value);
      match ParseInt(instanceCapStr.value)
      case None => Threw(NumberFormatException)
      case Some(number) => if number < 1 then Returned(Error("Must be at least one.")) else Returned(Ok)
  }

  /** Every cap string the validator accepts makes the constructor succeed with a cap of at least one. */
  lemma ValidatedCapParses(instanceCapStr: JString)
    requires DoCheckInstanceCapStr(instanceCapStr) == Returned(Ok)
    ensures ParseInstanceCap(instanceCapStr).Some?
    ensures 1 <= ParseInstanceCap(instanceCapStr).value <= IntMax
    ensures ParseInstanceCap(instanceCapStr).value == DigitsValue(instanceCapStr.value)
  {
    ParseIntDigits(instanceCapStr.value);
  }

  /** A digit string fails "at least one" exactly when it is all zeros. */
  lemma AtLeastOneMeansNonZeroDigit(s: string)
    requires IsDigits(s)
    ensures DoCheckInstanceCapStr(Some(s)) == Returned(Error("Must be at least one.")) <==>
      forall k :: 0 <= k < |s| ==> s[k] == '0'
  {
    DigitsValueZero(s);
  }
}
