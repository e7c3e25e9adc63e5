/** How the TypeScript generator names and types the properties of the
    request and response models. The reflected property type arrives as a tag. */
module TsFluentFormatters {
  import opened Strings

  /** The CLR type of a property, as far as the formatter distinguishes it. */
  datatype PropertyType =
    | StringDictionary          // IDictionary<string, string>
    | GuidType
    | StreamType
    | OtherType(fullName: string)

  datatype TsProperty = TsProperty(name: string, declaringTypeName: string, propertyType: PropertyType)

  /** `FormatPropertyType`: three CLR types get a fixed TypeScript type; any
      other keeps the name the generator chose. */
  function FormatPropertyType(property: TsProperty, memberTypeName: string): (r: string)
    ensures property.propertyType == StringDictionary ==> r == "{ [key: string]: string }"
    ensures property.propertyType == GuidType ==> r == "string"
    ensures property.propertyType == StreamType ==> r == "any"
    ensures property.propertyType.OtherType? ==> r == memberTypeName
  {
    if property.propertyType == StringDictionary then "{ [key: string]: string }"
    else if property.propertyType == GuidType then "string"
    else if property.propertyType == StreamType then "any"
    else memberTypeName
  }

  /** Members of a request model other than `Request` itself and the packets are optional. */
  predicate IsOptionalIn(declaringTypeName: string)
    ensures IsOptionalIn(declaringTypeName) ==> |declaringTypeName| > |"Request"|
  {
    if declaringTypeName != "Request" && !Contains(declaringTypeName, "Packet") && Contains(declaringTypeName, "Request")
    then
      ContainsLength(declaringTypeName, "Request");
      true
    else false
  }

  /** `FormatPropertyName`: `ArgumentsStream` becomes `Arguments`, members of a
      request model get a "?", every other name is kept. */
  function FormatPropertyName(property: TsProperty): (r: string)
    ensures property.name == "ArgumentsStream" ==> r == "Arguments"
    ensures property.name != "ArgumentsStream" && IsOptionalIn(property.declaringTypeName) ==> r == property.name + "?"
    ensures property.name != "ArgumentsStream" && !IsOptionalIn(property.declaringTypeName) ==> r == property.name
    ensures r == "Arguments" || r == property.name || r == property.name + "?"
  {
    if property.name == "ArgumentsStream" then "Arguments"
    else if IsOptionalIn(property.declaringTypeName) then property.name + "?"
    else property.name
  }

  /** Apart from `ArgumentsStream`, the property name is always recoverable:
      it is the result, or the result without its final "?". */
  lemma FormattedNameRecoversName(property: TsProperty)
    requires property.name != "ArgumentsStream"
    ensures var r := FormatPropertyName(property);
            r == property.name || (|r| > 0 && r[|r| - 1] == '?' && r[..|r| - 1] == property.name)
  {
    var r := FormatPropertyName(property);
    if r != property.name {
      assert r == property.name + "?";
      assert r[..|r| - 1] == property.name;
    }
  }

  lemma FindUsagesRequestIsOptional()
    ensures IsOptionalIn("FindUsagesRequest")
  {
    ContainsAt("FindUsagesRequest", "Request", 10);
    NotContainsWithoutFirst("FindUsagesRequest", "Packet");
  }

  /** A request model's members are optional. */
  lemma RequestMemberIsOptional()
    ensures FormatPropertyName(TsProperty("FileName", "FindUsagesRequest", OtherType("System.String"))) == "FileName?"
  {
    FindUsagesRequestIsOptional();
  }

  /** The members of `Request` itself are not. */
  lemma RequestBaseMemberIsRequired()
    ensures FormatPropertyName(TsProperty("FileName", "Request", OtherType("System.String"))) == "FileName"
  {
  }

  /** Nor are those of a packet, although its name contains "Request". */
  lemma PacketMemberIsRequired()
    ensures FormatPropertyName(TsProperty("Command", "RequestPacket", OtherType("System.String"))) == "Command"
  {
    ContainsAt("RequestPacket", "Packet", 7);
  }
}
