/** Start-up check that transactions are declared by annotations only
    (bytetcc-supports .../supports/spring/TransactionConfigDefinitionValidator.java).
    Bean definitions are plain records. */
module ConfigValidator {
  import opened Outcomes

  const TRANSACTION_PROXY_FACTORY_BEAN: string := "org.springframework.transaction.interceptor.TransactionProxyFactoryBean"
  const TRANSACTION_INTERCEPTOR: string := "org.springframework.transaction.interceptor.TransactionInterceptor"
  const ANNOTATION_TRANSACTION_ATTRIBUTE_SOURCE: string := "org.springframework.transaction.annotation.AnnotationTransactionAttributeSource"

  /** The `transactionAttributeSource` property of a definition: not set, set to null,
      a reference to another bean by name, or any other value. */
  datatype PropertyValue = Unset | NullValue | BeanReference(beanName: string) | OtherValue

  datatype BeanDefinition = BeanDefinition(beanClassName: Option<string>, transactionAttributeSource: PropertyValue)

  /** The bean factory: definition names in order, and the definitions by name. */
  datatype BeanFactory = BeanFactory(beanDefinitionNames: seq<string>, definitions: map<string, BeanDefinition>) {

    /** Every listed name has a definition. */
    predicate Valid()
    {
      forall i :: 0 <= i < |beanDefinitionNames| ==> beanDefinitionNames[i] in definitions
    }
  }

  datatype BeansError =
    | FatalBean(beanName: string)             // "Declaring transactions by configuration is not supported yet, ..."
    | NoSuchBeanDefinition(beanName: string)  // a reference to a bean the factory does not define

  function IsClass(definition: BeanDefinition, className: string): bool
  {
    definition.beanClassName == Some(className)
  }

  /** A transaction interceptor is acceptable when its attribute source is a reference
      to a defined bean of the annotation-based attribute source class. */
  predicate AnnotationDriven(factory: BeanFactory, definition: BeanDefinition)
  {
    && definition.transactionAttributeSource.BeanReference?
    && definition.transactionAttributeSource.beanName in factory.definitions
    && IsClass(factory.definitions[definition.transactionAttributeSource.beanName], ANNOTATION_TRANSACTION_ATTRIBUTE_SOURCE)
  }

  /** The check of one bean: `None` accepts it, `Some(e)` is what the validator raises. */
  function Verdict(factory: BeanFactory, beanName: string): (r: Option<BeansError>)
    requires beanName in factory.definitions
    ensures IsClass(factory.definitions[beanName], TRANSACTION_PROXY_FACTORY_BEAN) ==> r == Some(FatalBean(beanName))
    ensures IsClass(factory.definitions[beanName], TRANSACTION_INTERCEPTOR) ==>
      (r.None? <==> AnnotationDriven(factory, factory.definitions[beanName]))
    ensures (!IsClass(factory.definitions[beanName], TRANSACTION_PROXY_FACTORY_BEAN)
             && !IsClass(factory.definitions[beanName], TRANSACTION_INTERCEPTOR)) ==> r.None?
    ensures r.Some? && r.value.NoSuchBeanDefinition? ==>
      var source := factory.definitions[beanName].transactionAttributeSource;
      source == BeanReference(r.value.beanName) && source.beanName !in factory.definitions
    ensures r.Some? && r.value.FatalBean? ==> r.value.beanName == beanName
  {
    var definition := factory.definitions[beanName];
    if IsClass(definition, TRANSACTION_PROXY_FACTORY_BEAN) then Some(FatalBean(beanName))
    else if IsClass(definition, TRANSACTION_INTERCEPTOR) then
      match definition.transactionAttributeSource
      case BeanReference(reference) =>
        if reference !in factory.definitions then Some(NoSuchBeanDefinition(reference))
        else if IsClass(factory.definitions[reference], ANNOTATION_TRANSACTION_ATTRIBUTE_SOURCE) then None
        else Some(FatalBean(beanName))
      case _ => Some(FatalBean(beanName))
    else None
  }

  /** `postProcessBeanFactory`: checks the beans in definition-name order and raises the
      error of the first offending one; returns normally when none offends. */
  method PostProcessBeanFactory(factory: BeanFactory) returns (r: Option<BeansError>)
    requires factory.Valid()
    ensures r.None? <==>
      forall i :: 0 <= i < |factory.beanDefinitionNames| ==> Verdict(factory, factory.beanDefinitionNames[i]).None?
    ensures r.Some? ==>
      exists k :: 0 <= k < |factory.beanDefinitionNames|
        && Verdict(factory, factory.beanDefinitionNames[k]) == r
        && forall j :: 0 <= j < k ==> Verdict(factory, factory.beanDefinitionNames[j]).None?
  {
    var beanNameArray := factory.beanDefinitionNames;
    for i := 0 to |beanNameArray|
      invariant forall j :: 0 <= j < i ==> Verdict(factory, beanNameArray[j]).None?
    {
      var beanName := beanNameArray[i];
      var beanDef := factory.definitions[beanName];
      if IsClass(beanDef, TRANSACTION_PROXY_FACTORY_BEAN) {
        return Some(FatalBean(beanName));
      }
      if IsClass(beanDef, TRANSACTION_INTERCEPTOR) {
        var errorExists := true;
        var value := beanDef.transactionAttributeSource;
        if value.BeanReference? {
          if value.beanName !in factory.definitions {
            return Some(NoSuchBeanDefinition(value.beanName));
          }
          var refBeanDef := factory.definitions[value.beanName];
          errorExists := !IsClass(refBeanDef, ANNOTATION_TRANSACTION_ATTRIBUTE_SOURCE);
        }
        if errorExists {
          return Some(FatalBean(beanName));
        }
      }
    }
    return None;
  }

  /** Beans of any other class never cause a rejection: appending one to an accepted
      configuration leaves it accepted. */
  lemma OrdinaryBeansNeverOffend(factory: BeanFactory, name: string, definition: BeanDefinition)
    requires factory.Valid()
    requires name !in factory.definitions
    requires !IsClass(definition, TRANSACTION_PROXY_FACTORY_BEAN) && !IsClass(definition, TRANSACTION_INTERCEPTOR)
    requires forall i :: 0 <= i < |factory.beanDefinitionNames| ==> Verdict(factory, factory.beanDefinitionNames[i]).None?
    ensures
      var extended := BeanFactory(factory.beanDefinitionNames + [name], factory.definitions[name := definition]);
      extended.Valid()
      && forall i :: 0 <= i < |extended.beanDefinitionNames| ==> Verdict(extended, extended.beanDefinitionNames[i]).None?
  {
  }
}
