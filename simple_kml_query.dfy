/** The simple query of the KML/COLLADA/glTF export: three use-flags and the
    three filters they switch on. Every setter stores its argument as given,
    null included, and changes no other field. */
module SimpleKmlQueries {
  import opened Wrappers
  import opened Beans

  type FeatureTypeFilter = BeanRef
  type ResourceIdOperator = BeanRef
  type KmlTiling = BeanRef

  class SimpleKmlQuery {
    var useTypeNames: bool
    var useGmlIdFilter: bool
    var useBboxFilter: bool
    var featureTypeFilter: Option<FeatureTypeFilter>
    var gmlIdFilter: Option<ResourceIdOperator>
    var bboxFilter: Option<KmlTiling>

    /** A new query has all three filters set to fresh default objects and
        all three use-flags off. */
    constructor ()
      ensures !useTypeNames && !useGmlIdFilter && !useBboxFilter
      ensures featureTypeFilter == Some(Default)
      ensures gmlIdFilter == Some(Default)
      ensures bboxFilter == Some(Default)
      ensures IsSetFeatureTypeFilter() && IsSetGmlIdFilter() && IsSetBboxFilter()
    {
      useTypeNames, useGmlIdFilter, useBboxFilter := false, false, false;
      featureTypeFilter := Some(Default);
      gmlIdFilter := Some(Default);
      bboxFilter := Some(Default);
    }

    function IsSetFeatureTypeFilter(): (r: bool)
      reads this
      ensures r <==> featureTypeFilter != None
    {
      featureTypeFilter.Some?
    }

    function IsSetGmlIdFilter(): (r: bool)
      reads this
      ensures r <==> gmlIdFilter != None
    {
      gmlIdFilter.Some?
    }

    function IsSetBboxFilter(): (r: bool)
      reads this
      ensures r <==> bboxFilter != None
    {
      bboxFilter.Some?
    }

    method SetUseTypeNames(value: bool)
      modifies this`useTypeNames
      ensures useTypeNames == value
    {
      useTypeNames := value;
    }

    method SetUseGmlIdFilter(value: bool)
      modifies this`useGmlIdFilter
      ensures useGmlIdFilter == value
    {
      useGmlIdFilter := value;
    }

    method SetUseBboxFilter(value: bool)
      modifies this`useBboxFilter
      ensures useBboxFilter == value
    {
      useBboxFilter := value;
    }

    method SetFeatureTypeFilter(filter: Option<FeatureTypeFilter>)
      modifies this`featureTypeFilter
      ensures featureTypeFilter == filter
      ensures IsSetFeatureTypeFilter() <==> filter.Some?
    {
      featureTypeFilter := filter;
    }

    method SetGmlIdFilter(filter: Option<ResourceIdOperator>)
      modifies this`gmlIdFilter
      ensures gmlIdFilter == filter
      ensures IsSetGmlIdFilter() <==> filter.Some?
    {
      gmlIdFilter := filter;
    }

    method SetBboxFilter(filter: Option<KmlTiling>)
      modifies this`bboxFilter
      ensures bboxFilter == filter
      ensures IsSetBboxFilter() <==> filter.Some?
    {
      bboxFilter := filter;
    }
  }
}
