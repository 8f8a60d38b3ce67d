/**
 * The manifest pointer wrapper (`MyPathQueryString`). Its own source is
 * not part of this model: how it splits a url into named parameters is the
 * abstract `PathParser`, and its state is the optional parameter map
 * (`None` when it wraps a null url).
 */
module PathQuery {
  import opened Wrappers

  type Params = map<string, string>
  type PathParser = string -> Params

  class PathQueryString {
    var params: Option<Params>

    constructor (parse: PathParser, url: Option<string>)
      ensures url.None? ==> params.None?
      ensures url.Some? ==> params == Some(parse(url.value))
    {
      params := if url.None? then None else Some(parse(url.value));
    }

    /** True exactly when the wrapped url is null. */
    predicate IsEmpty(): (r: bool)
      reads this
      ensures r ==> forall key :: Get(key).None?
      ensures !r ==> params.Some?
    {
      params.None?
    }

    function Get(key: string): (r: Option<string>)
      reads this
      ensures r.Some? <==> params.Some? && key in params.value
      ensures r.Some? ==> r.value == params.value[key]
    {
      if params.Some? && key in params.value then Some(params.value[key]) else None
    }

    method Remove(key: string)
      requires !IsEmpty()
      modifies this
      ensures params == Some(old(params.value) - {key})
    {
      params := Some(params.value - {key});
    }

    method Set(key: string, value: string)
      requires !IsEmpty()
      modifies this
      ensures params == Some(old(params.value)[key := value])
    {
      params := Some(params.value[key := value]);
    }
  }
}
