/**
 * An abstract class-file model: the parts of java.lang.classfile the weaver reads
 * and writes. Parsing and emission of bytes are not modelled; a class file is
 * represented directly by its ClassModel.
 */
module ClassFile {
  import opened Wrappers
  import opened JavaString

  /** java.lang.classfile.TypeKind. */
  datatype TypeKind = Void | Boolean | Byte | Char | Short | Int | Long | Float | Double | Reference

  /** TypeKind.slotSize(): 0 for void, 2 for long and double, 1 otherwise. */
  function SlotSize(k: TypeKind): nat {
    match k
    case Void => 0
    case Long => 2
    case Double => 2
    case _ => 1
  }

  /**
   * A field descriptor (java.lang.constant.ClassDesc), spelled with the letters
   * of the JVM descriptor grammar: L is a class given by its internal name and
   * Arr an array of the component type.
   */
  datatype ClassDesc = V | Z | B | C | S | I | J | F | D | L(internalName: string) | Arr(component: ClassDesc)

  /** ClassDesc.descriptorString(). */
  function DescriptorString(d: ClassDesc): string {
    match d
    case V => "V"
    case Z => "Z"
    case B => "B"
    case C => "C"
    case S => "S"
    case I => "I"
    case J => "J"
    case F => "F"
    case D => "D"
    case L(n) => "L" + n + ";"
    case Arr(c) => "[" + DescriptorString(c)
  }

  /** TypeKind.from(ClassDesc) (also TypeKind.fromDescriptor on the descriptor string). */
  function KindOf(d: ClassDesc): TypeKind {
    match d
    case V => Void
    case Z => Boolean
    case B => Byte
    case C => Char
    case S => Short
    case I => Int
    case J => Long
    case F => Float
    case D => Double
    case L(_) => Reference
    case Arr(_) => Reference
  }

  /** java.lang.constant.MethodTypeDesc. */
  datatype MethodDesc = MethodDesc(params: seq<ClassDesc>, ret: ClassDesc)

  function ParamsString(ps: seq<ClassDesc>): string {
    if ps == [] then "" else ParamsString(ps[..|ps| - 1]) + DescriptorString(ps[|ps| - 1])
  }

  /** MethodTypeDesc.descriptorString(): "(" params ")" return. */
  function MethodDescriptorString(m: MethodDesc): string {
    "(" + ParamsString(m.params) + ")" + DescriptorString(m.ret)
  }

  /** An element value of an annotation; values other than strings and arrays are not distinguished. */
  datatype AnnotationValue = OfString(str: string) | OfArray(values: seq<AnnotationValue>) | OfOther

  datatype AnnotationElement = AnnotationElement(name: string, value: AnnotationValue)

  /** A runtime-visible annotation: the descriptor of its class and its element-value pairs. */
  datatype Annotation = Annotation(descriptor: string, elements: seq<AnnotationElement>)

  /** The target of a type annotation; a local-variable target carries the slots of its table. */
  datatype TargetInfo =
    | FormalParameterTarget(index: nat)
    | MethodReturnTarget
    | FieldTarget
    | LocalVarTarget(slots: seq<nat>)
    | OtherTarget

  datatype TypeAnnotation = TypeAnnotation(target: TargetInfo, annotation: Annotation)

  /** Access flags as in the class file (java.lang.reflect.Modifier values). */
  const ACC_PUBLIC: bv16 := 0x0001
  const ACC_PRIVATE: bv16 := 0x0002
  const ACC_STATIC: bv16 := 0x0008
  const ACC_FINAL: bv16 := 0x0010
  const ACC_BRIDGE: bv16 := 0x0040
  const ACC_SYNTHETIC: bv16 := 0x1000

  predicate HasFlag(flags: bv16, flag: bv16) {
    flags & flag != 0
  }

  /** The field, invoke, return, array, local and stack instructions the weaver reads or emits. */
  datatype FieldOp = GetField | PutField | GetStatic | PutStatic
  datatype InvokeOp = InvokeVirtual | InvokeSpecial | InvokeStatic | InvokeInterface

  /**
   * An instruction. Return, array and local-variable instructions carry the
   * TypeKind of their opcode family (Return(Reference) is ARETURN, Return(Void)
   * is RETURN, ArrayStore(Reference) is AASTORE, Store(Reference, n) is ASTORE
   * and ASTORE_n); instructions the weaver never inspects are Other.
   */
  datatype Instr =
    | Field(op: FieldOp, owner: string, name: string, fieldType: ClassDesc)
    | Invoke(iop: InvokeOp, owner: string, name: string, desc: MethodDesc)
    | Return(kind: TypeKind)
    | ArrayLoad(kind: TypeKind)
    | ArrayStore(kind: TypeKind)
    | Load(kind: TypeKind, slot: nat)
    | Store(kind: TypeKind, slot: nat)
    | Ldc(constant: string)
    | Dup
    | DupX1
    | Swap
    | Pop
    | Pop2
    | Other(opcode: string)

  /** A code element: a line-number entry, an instruction, or another pseudo-element (label, table entry). */
  datatype CodeElement =
    | LineNumber(line: nat)
    | Instruction(ins: Instr)
    | Pseudo(tag: string)

  /** A method element: the Code attribute (with its type annotations) or any other attribute. */
  datatype MethodElement =
    | CodeAttribute(code: seq<CodeElement>, codeTypeAnnotations: seq<TypeAnnotation>)
    | OtherMethodElement(tag: string)

  datatype FieldModel = FieldModel(
    name: string,
    fieldType: ClassDesc,
    flags: bv16,
    annotations: seq<Annotation>,
    typeAnnotations: seq<TypeAnnotation>)

  /**
   * A method: name, descriptor, flags, its RuntimeVisibleAnnotations,
   * RuntimeVisibleParameterAnnotations and RuntimeVisibleTypeAnnotations (an
   * absent attribute is an empty list), and its elements.
   */
  datatype MethodModel = MethodModel(
    name: string,
    desc: MethodDesc,
    flags: bv16,
    annotations: seq<Annotation>,
    parameterAnnotations: seq<seq<Annotation>>,
    typeAnnotations: seq<TypeAnnotation>,
    elements: seq<MethodElement>)

  /** A class: its internal name, superclass, class annotations, fields, methods and other elements. */
  datatype ClassModel = ClassModel(
    thisClass: string,
    superclass: Option<string>,
    annotations: seq<Annotation>,
    fields: seq<FieldModel>,
    methods: seq<MethodModel>,
    otherElements: seq<string>)

  /** MethodModel.code(): the first Code attribute, if any. */
  function CodeOf(elements: seq<MethodElement>): (r: Option<MethodElement>)
    ensures r.Some? ==> r.value.CodeAttribute? && r.value in elements
    ensures r.None? <==> forall e :: e in elements ==> !e.CodeAttribute?
  {
    if elements == [] then None
    else if elements[0].CodeAttribute? then Some(elements[0])
    else CodeOf(elements[1..])
  }

  /** The classes a loader can find, by internal name; a name that is absent has no class-file resource. */
  type ClassMap = map<string, ClassModel>

  function Lookup(classes: ClassMap, name: string): Option<ClassModel> {
    if name in classes then Some(classes[name]) else None
  }

  /** The internal name of java.lang.Object. */
  const OBJECT_INTERNAL := "java/lang/Object"

  /** Binary name from internal name, and back (String.replace between '/' and '.'). */
  function ToDots(internalName: string): string {
    Replace(internalName, '/', '.')
  }

  function ToSlashes(binaryName: string): string {
    Replace(binaryName, '.', '/')
  }
}
