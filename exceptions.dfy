/**
 * The API's exception hierarchy, together with the Python and framework exceptions that the
 * modelled code lets escape. `FHIRException` and its subclasses carry the message that a
 * client eventually sees as the `detail` of the error.
 */
module Exceptions {
  import opened Definitions
  import opened Strings

  const RequestProcessPrefix: string := "The request cannot be processed due to the following issues:\n"
  const ErrorSeparator: string := ",\n"

  datatype FhirError =
    // FHIRException and its subclasses
    | FHIRException(message: string)
    | FhirRequestProcessException(errors: seq<string>)
    | InvalidAttributeError(attr: string, propertyType: string)
    | PropertyError(message: string)
    | PropertyMaxSizeError(definition: PropertyDefinition)
    // plain Exception subclasses of the API
    | PropertyTypeError(localType: string, description: PropertyDefinition)
    | UnsupportedFormatError(dataFormat: string)
    // exceptions of Python, the web framework and the database layer
    | ValueError(message: string)
    | AttributeError(name: string)
    | KeyError(key: string)
    | TypeError(message: string)
    | IndexError(message: string)
    | NotAuthenticated
    | NotImplementedError(message: string)
    | DoesNotExist(model: string)
  {
    /** `isinstance(e, FHIRException)` */
    predicate IsFHIRException() {
      FHIRException? || FhirRequestProcessException? || InvalidAttributeError? || PropertyError?
      || PropertyMaxSizeError?
    }

    /** `isinstance(e, PropertyError)` */
    predicate IsPropertyError() {
      PropertyError? || PropertyMaxSizeError?
    }

    /** The message each constructor formats. */
    function Message(): string {
      match this
      case FHIRException(m) => m
      case FhirRequestProcessException(errors) => RequestProcessPrefix + Join(errors, ErrorSeparator)
      case InvalidAttributeError(attr, t) =>
        "The attribute named `" + attr + "` is not a valid property for `" + t + "`."
      case PropertyError(m) => m
      case PropertyMaxSizeError(d) =>
        "The max size was exceeded for property " + d.name + " [" + IntToString(d.countMin) + ".."
        + d.countMax.Format() + "]"
      case PropertyTypeError(local, d) =>
        "Expected '" + d.ty.Format() + "' but got '" + local + "' for '" + d.name + "' property"
      case UnsupportedFormatError(f) => "The format '" + f + "' is not supported"
      case ValueError(m) => m
      case AttributeError(n) => n
      case KeyError(k) => k
      case TypeError(m) => m
      case IndexError(m) => m
      case NotAuthenticated => "Authentication credentials were not provided."
      case NotImplementedError(m) => m
      case DoesNotExist(m) => m + " matching query does not exist."
    }
  }

  /** Every error handed to `FhirRequestProcessException` appears verbatim in its message. */
  lemma RequestProcessMessageListsEveryError(errors: seq<string>, k: nat)
    requires k < |errors|
    ensures exists pre, post ::
              && FhirRequestProcessException(errors).Message() == pre + errors[k] + post
              && |pre| >= |RequestProcessPrefix| && pre[..|RequestProcessPrefix|] == RequestProcessPrefix
  {
    var pre, post := JoinExposes(errors, ErrorSeparator, k);
    var m := FhirRequestProcessException(errors).Message();
    assert m == (RequestProcessPrefix + pre) + errors[k] + post;
    assert (RequestProcessPrefix + pre)[..|RequestProcessPrefix|] == RequestProcessPrefix;
  }

  /** `sep.join(parts)` contains the k-th part between some text before and after. */
  lemma {:induction false} JoinExposes(parts: seq<string>, sep: string, k: nat) returns (pre: string, post: string)
    requires k < |parts|
    ensures Join(parts, sep) == pre + parts[k] + post
    decreases k
  {
    if |parts| == 1 {
      pre, post := "", "";
    } else if k == 0 {
      pre, post := "", sep + Join(parts[1..], sep);
    } else {
      var p, q := JoinExposes(parts[1..], sep, k - 1);
      pre, post := parts[0] + sep + p, q;
    }
  }

  /** With a single issue the message is the fixed prefix followed by that issue. */
  lemma SingleErrorMessage(e: string)
    ensures FhirRequestProcessException([e]).Message() == RequestProcessPrefix + e
  {
  }

  /** A cardinality violation is a `PropertyError`, hence a `FHIRException`; type errors are neither. */
  lemma Hierarchy(d: PropertyDefinition, local: string, f: string)
    ensures PropertyMaxSizeError(d).IsPropertyError() && PropertyMaxSizeError(d).IsFHIRException()
    ensures !PropertyTypeError(local, d).IsFHIRException() && !UnsupportedFormatError(f).IsFHIRException()
  {
  }

  /** An unbounded property reports its maximum as `inf`. */
  lemma UnboundedMaxSizeMessage(d: PropertyDefinition)
    requires d.countMax.Unbounded?
    ensures var m := PropertyMaxSizeError(d).Message(); m[|m| - 4..] == "inf]"
  {
  }
}
