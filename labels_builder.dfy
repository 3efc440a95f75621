/**
 * DockerLabelsBuilder: the attribution labels the plugin puts on every
 * container it creates (plugin marker, cloud name, image name, label string).
 */
module Labels {

  const PluginName: string := "jenkins.plugin_name"
  const PluginNameVal: string := "docker_ephemeral_cloud"
  const CloudName: string := "jenkins.cloud_name"
  const ImageName: string := "jenkins.image_name"
  const LabelString: string := "jenkins.label_string"

  /** sanitize: every space becomes an underscore, every other char is kept. */
  function Sanitize(value: string): (r: string)
    ensures |r| == |value|
    ensures ' ' !in r
    ensures forall i :: 0 <= i < |r| && value[i] != ' ' ==> r[i] == value[i]
    ensures forall i :: 0 <= i < |r| && value[i] == ' ' ==> r[i] == '_'
  {
    if value == [] then []
    else [if value[0] == ' ' then '_' else value[0]] + Sanitize(value[1..])
  }

  lemma SanitizeIdempotent(value: string)
    ensures Sanitize(Sanitize(value)) == Sanitize(value)
  {
    var once := Sanitize(value);
    assert forall i :: 0 <= i < |once| ==> Sanitize(once)[i] == once[i];
  }

  /** A string without spaces is its own sanitized form. */
  lemma SanitizeFixesSpaceFree(value: string)
    requires ' ' !in value
    ensures Sanitize(value) == value
  {
    assert forall i :: 0 <= i < |value| ==> Sanitize(value)[i] == value[i];
  }

  lemma SanitizeExample()
    ensures Sanitize("my label") == "my_label"
  {
  }

  /** The labels a container gets from the builder sequence CreateContainerCallable runs. */
  function ContainerLabels(cloudName: string, imageName: string, labelString: string): (m: map<string, string>)
    ensures m.Keys == {PluginName, CloudName, ImageName, LabelString}
    ensures m[PluginName] == PluginNameVal
    ensures m[CloudName] == Sanitize(cloudName) && m[ImageName] == Sanitize(imageName)
    ensures m[LabelString] == labelString
  {
    map[PluginName := PluginNameVal, CloudName := Sanitize(cloudName),
        ImageName := Sanitize(imageName), LabelString := labelString]
  }

  /** The cloud and image labels hold no space, so a filter on them needs no escaping. */
  lemma ContainerLabelsSpaceFree(cloudName: string, imageName: string, labelString: string)
    ensures var m := ContainerLabels(cloudName, imageName, labelString);
      ' ' !in m[CloudName] && ' ' !in m[ImageName] && ' ' !in m[PluginName]
  {
  }

  class DockerLabelsBuilder {
    var labelsMap: map<string, string>

    constructor ()
      ensures labelsMap == map[PluginName := PluginNameVal]
    {
      labelsMap := map[PluginName := PluginNameVal];
    }

    /**
     * build(): the current contents of the map. Java returns an unmodifiable
     * live view of the map; the model returns its value at the time of the
     * call, which is the same for a caller that reads it straight away.
     */
    function Build(): (m: map<string, string>)
      reads this
    {
      labelsMap
    }

    method SetCloudName(cloudName: string) returns (self: DockerLabelsBuilder)
      modifies this
      ensures self == this
      ensures labelsMap == old(labelsMap)[CloudName := Sanitize(cloudName)]
    {
      labelsMap := labelsMap[CloudName := Sanitize(cloudName)];
      self := this;
    }

    method SetImageName(imageName: string) returns (self: DockerLabelsBuilder)
      modifies this
      ensures self == this
      ensures labelsMap == old(labelsMap)[ImageName := Sanitize(imageName)]
    {
      labelsMap := labelsMap[ImageName := Sanitize(imageName)];
      self := this;
    }

    /** The label string is stored as given, not sanitized. */
    method SetLabelString(labelString: string) returns (self: DockerLabelsBuilder)
      modifies this
      ensures self == this
      ensures labelsMap == old(labelsMap)[LabelString := labelString]
    {
      labelsMap := labelsMap[LabelString := labelString];
      self := this;
    }
  }

  /**
   * The builder sequence of CreateContainerCallable: a fresh builder, then
   * cloud name, image name and label string, then build().
   */
  method BuildContainerLabels(cloudName: string, imageName: string, labelString: string)
    returns (m: map<string, string>)
    ensures m == ContainerLabels(cloudName, imageName, labelString)
  {
    var builder := new DockerLabelsBuilder();
    var _ := builder.SetCloudName(cloudName);
    var _ := builder.SetImageName(imageName);
    var _ := builder.SetLabelString(labelString);
    m := builder.Build();
  }

  /**
   * Setting a key twice keeps only the last value; the other keys are
   * untouched. A method rather than a lemma, because it runs the builder,
   * which has to be allocated.
   */
  method LastWriteWins(first: string, second: string, imageName: string)
    returns (m: map<string, string>)
    ensures m.Keys == {PluginName, CloudName, ImageName}
    ensures m[CloudName] == Sanitize(second)
    ensures m[ImageName] == Sanitize(imageName)
    ensures m[PluginName] == PluginNameVal
  {
    var builder := new DockerLabelsBuilder();
    var _ := builder.SetCloudName(first);
    var _ := builder.SetImageName(imageName);
    var _ := builder.SetCloudName(second);
    m := builder.Build();
  }
}
