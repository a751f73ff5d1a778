/**
 * `_splitPublicIdAndService`: how an email id such as `emailA.myshop` is cut
 * into the public id that names a DNS-like record (`myshop`), the service
 * within it (`emailA`, looked up as `emailA@email`) and a normalised email id.
 */
module ServiceId {
  import opened Text
  import opened Records

  datatype ServiceInfo = ServiceInfo(emailId: string, publicId: string, serviceName: string)

  /** As the source computes it: strip trailing dots, split on dots, pop the last part. */
  function SplitPublicIdAndService(emailId: string): ServiceInfo
  {
    SplitStripped(StripTrailingDots(emailId))
  }

  /** The steps after the trailing dots are stripped from `str`. */
  function SplitStripped(str: string): ServiceInfo
  {
    var toParts := Split(str, '.');
    var publicId := toParts[|toParts| - 1];
    var serviceId := SliceToNegativeEnd(str, |publicId| + 1);
    var id := (if |serviceId| > 0 then serviceId + "." else "") + publicId;
    ServiceInfo(id, publicId, serviceId + SERVICE_NAME_POSTFIX)
  }

  /** The service id, defined directly: what precedes the last dot of the stripped id, if any. */
  function ServiceIdOf(emailId: string): string
  {
    var str := StripTrailingDots(emailId);
    var k := LastIndexOf(str, '.');
    if k >= 0 then str[..k] else ""
  }

  /** The public id, defined directly: what follows the last dot of the stripped id. */
  function PublicIdOf(emailId: string): string
  {
    var str := StripTrailingDots(emailId);
    str[LastIndexOf(str, '.') + 1..]
  }

  /**
   * The public id is the segment after the last dot of the stripped id; it has
   * no dot, and it is empty only when the input is nothing but dots.
   */
  lemma PublicIdIsLastSegment(emailId: string)
    ensures SplitPublicIdAndService(emailId).publicId == PublicIdOf(emailId)
    ensures '.' !in PublicIdOf(emailId)
    ensures (exists i :: 0 <= i < |emailId| && emailId[i] != '.') <==> PublicIdOf(emailId) != ""
  {
    var str := StripTrailingDots(emailId);
    LastPartOfSplit(str, '.');
    PopIsLast(emailId);
    PublicIdNoDot(emailId);
    PublicIdNonEmpty(emailId);
  }

  /** The popped public id is the last part of the split stripped id. */
  lemma PopIsLast(emailId: string)
    ensures var parts := Split(StripTrailingDots(emailId), '.');
            SplitPublicIdAndService(emailId).publicId == parts[|parts| - 1]
  {
  }

  lemma PublicIdNoDot(emailId: string)
    ensures '.' !in PublicIdOf(emailId)
  {
    var str := StripTrailingDots(emailId);
    var k := LastIndexOf(str, '.');
    forall i | 0 <= i < |str| - (k + 1) ensures PublicIdOf(emailId)[i] != '.' {
      assert PublicIdOf(emailId)[i] == str[k + 1 + i];
    }
  }

  lemma PublicIdNonEmpty(emailId: string)
    ensures (exists i :: 0 <= i < |emailId| && emailId[i] != '.') <==> PublicIdOf(emailId) != ""
  {
    var str := StripTrailingDots(emailId);
    var k := LastIndexOf(str, '.');
    if str != [] {
      assert str[|str| - 1] != '.';
      assert emailId[|str| - 1] == str[|str| - 1];
      assert PublicIdOf(emailId)[|str| - 1 - (k + 1)] == str[|str| - 1];
    }
    if exists i :: 0 <= i < |emailId| && emailId[i] != '.' {
      var i :| 0 <= i < |emailId| && emailId[i] != '.';
      assert i < |str|;
    }
  }

  /** The service name is the service id followed by `@email`, whatever the input. */
  lemma ServiceNameFromServiceId(emailId: string)
    ensures SplitPublicIdAndService(emailId).serviceName == ServiceIdOf(emailId) + SERVICE_NAME_POSTFIX
    ensures ServiceIdOf(emailId) == "" <==> LastIndexOf(StripTrailingDots(emailId), '.') <= 0
  {
    PublicIdIsLastSegment(emailId);
  }

  /**
   * The returned email id is the stripped input, except that a lone leading
   * dot is dropped (`.x` gives `x`); with a service id it is service id, dot,
   * public id.
   */
  lemma EmailIdNormalised(emailId: string)
    ensures var str := StripTrailingDots(emailId);
            SplitPublicIdAndService(emailId).emailId ==
              if LastIndexOf(str, '.') == 0 then str[1..] else str
    ensures ServiceIdOf(emailId) != "" ==>
              SplitPublicIdAndService(emailId).emailId ==
                ServiceIdOf(emailId) + "." + PublicIdOf(emailId)
  {
    PublicIdIsLastSegment(emailId);
    var str := StripTrailingDots(emailId);
    var k := LastIndexOf(str, '.');
    if k > 0 {
      assert str == str[..k] + "." + str[k + 1..];
    }
  }

  /** Trailing dots are ignored: `a.b..` gives what `a.b` gives. */
  lemma TrailingDotsIgnored(emailId: string)
    ensures SplitPublicIdAndService(emailId + ".") == SplitPublicIdAndService(emailId)
  {
    StripTrailingDotsAppendDot(emailId);
    SameStrippedSameSplit(emailId + ".", emailId);
  }

  /** The returned email id is normal: splitting it again gives the same three parts. */
  lemma SplitIdempotent(emailId: string)
    ensures SplitPublicIdAndService(SplitPublicIdAndService(emailId).emailId)
            == SplitPublicIdAndService(emailId)
  {
    var info := SplitPublicIdAndService(emailId);
    var str := StripTrailingDots(emailId);
    var k := LastIndexOf(str, '.');
    var e := info.emailId;
    EmailIdNormalised(emailId);
    StripTrailingDotsIdempotent(emailId);
    if k == 0 {
      assert e == str[1..];
      assert str[|str| - 1] != '.';
      StripTrailingDotsUnique(e, e);
      assert LastIndexOf(e, '.') == -1;
      PublicIdIsLastSegment(emailId);
      PublicIdIsLastSegment(e);
      ServiceNameFromServiceId(emailId);
      ServiceNameFromServiceId(e);
      EmailIdNormalised(e);
      var info' := SplitPublicIdAndService(e);
      assert info'.emailId == e == info.emailId;
      assert info'.publicId == e == info.publicId;
      assert info'.serviceName == SERVICE_NAME_POSTFIX == info.serviceName;
    } else {
      SameStrippedSameSplit(e, emailId);
    }
  }

  lemma SameStrippedSameSplit(a: string, b: string)
    requires StripTrailingDots(a) == StripTrailingDots(b)
    ensures SplitPublicIdAndService(a) == SplitPublicIdAndService(b)
  {
  }
}
